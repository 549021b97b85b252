# RIFF INFO tag adapter

A Dafny model of the RIFF INFO tag adapter of lofty-rs. The adapter `RiffTag` owns a
store that maps four-character INFO identifiers to text. It implements the uniform
tag-editing operations (get, set and remove for title, artist, date, copyright, genre,
album title, track number, total tracks, disc number and total discs) through a
fixed key map:

| field | read from (in order) | written to / removed from |
|---|---|---|
| title | `INAM` | `INAM` |
| artist | `IART` | `IART` |
| date | `ICRD` | `ICRD` |
| copyright | `ICOP` | `ICOP` |
| genre | `IGNR` | `IGNR` |
| album title | `IPRD`, then `ALBU` | `IPRD` |
| track number | `ITRK`, then `IPRT`, then `TRAC` | `ITRK` |
| total tracks | `IFRM` | `IFRM` |
| disc number, total discs | `DISC` | `DISC` |

Numeric fields are stored as the decimal text of a `u32`. A numeric getter parses only
the first identifier present. When that text does not parse, the getter reports `None`
rather than an error.

Files:

- `wrappers.dfy`: module `Wrappers`, Rust's `Option` (with `or_else`) and `Result`.
- `decimal.dfy`: module `Decimal`, the two conversions the adapter relies on.
  - `ParseU32` is `str::parse::<u32>`. It has Rust's error kinds (`Empty`, `InvalidDigit`, `PosOverflow`). It reads digits left to right and checks the bound at every step.
  - `ToDecimal` is `u32::to_string`.
  - The module proves that the parse and `to_string` are inverse.
  - It also proves exactly which texts the parse accepts.
- `riff_tag.dfy`: module `Riff`.
  - The store primitives are `GetValue`, and `Inserted` and `Removed` as specifications of `HashMap::insert` and `HashMap::remove`.
  - The getters are functions of the store.
  - The class `RiffTag` holds the store in a `map` field. Its setters and removers update that field in place.
  - Each setter and remover states the new store. It also states the new value of every getter, through `View`, which collects what all ten getters report.

## Model

| member | source | states |
|---|---|---|
| `Decimal.ParseU32` | src/components/tags/riff_tag.rs:125 | `str::parse::<u32>`. It fails with `Empty` exactly on empty text. It succeeds exactly when the text after one optional `+` is a non-empty run of ASCII digits whose value is at most 4294967295, and the result is that value. |
| `Decimal.AccumulateChecksFinalValue` | src/components/tags/riff_tag.rs:125 | The overflow check after every digit rejects exactly the digit strings whose final value exceeds `u32::MAX`. Any non-digit character makes the parse fail. |
| `Decimal.ParseDigits` | src/components/tags/riff_tag.rs:125 | Unsigned digit text parses to its value when that value fits, and otherwise fails with `PosOverflow`. |
| `Decimal.ParsePadded` | src/components/tags/riff_tag.rs:125 | The parse accepts an optional `+` and any number of leading zeros before the canonical digits of `n`, and returns `n`. |
| `Decimal.ParseRejectsMalformed` | src/components/tags/riff_tag.rs:125 | `""` is `Empty`. `"+"`, `"-1"`, `" 7"` and `"12a"` are `InvalidDigit`. |
| `Decimal.ParseMax` | src/components/tags/riff_tag.rs:125 | `"4294967295"` parses to `u32::MAX`. |
| `Decimal.ParseOverflow` | src/components/tags/riff_tag.rs:125 | `"4294967296"` fails with `PosOverflow`. |
| `Decimal.ParseSignedPadded` | src/components/tags/riff_tag.rs:125 | `"+007"` parses to 7. |
| `Decimal.ToDecimal` | src/components/tags/riff_tag.rs:134 | `u32::to_string` yields canonical text: non-empty, digits only, and no leading zero except in `"0"`. It is `"0"` exactly for 0. |
| `Decimal.ToDecimalValue` | src/components/tags/riff_tag.rs:134 | The digits `to_string` writes denote the number written. |
| `Decimal.ParseToDecimal` | src/components/tags/riff_tag.rs:133-135 | Round trip: `parse::<u32>(n.to_string()) == Ok(n)` for every `u32`. |
| `Decimal.CanonicalValue` | src/components/tags/riff_tag.rs:134 | Every canonical digit string is the `to_string` of its own value. |
| `Decimal.ParseCanonical` | src/components/tags/riff_tag.rs:133-135 | For canonical text `s`, `parse(s) == Ok(n)` if and only if `s == n.to_string()`. |
| `Riff.GetValue` | src/components/tags/riff_tag.rs:43-45 | `get_value(key)` is present exactly when `key` is in the store, and is then the stored value. |
| `Riff.Inserted` | src/components/tags/riff_tag.rs:47-52 | After an insert, `get_value(key)` is the new value whatever it held before, every other key reads as before, and the key set gains `key`. |
| `Riff.Removed` | src/components/tags/riff_tag.rs:54-56 | After a remove, `get_value(key)` is `None`, every other key reads as before, and the key set loses `key`. |
| `Riff.RiffTag.constructor` | src/components/tags/riff_tag.rs:16-22 | A default tag has an empty store, so every one of the ten getters returns `None`. |
| `Riff.RiffTag.SetValue` | src/components/tags/riff_tag.rs:47-52 | `set_value` replaces the store by the inserted store. |
| `Riff.RiffTag.RemoveKey` | src/components/tags/riff_tag.rs:54-56 | `remove_key` replaces the store by the store without `key`. |
| `Riff.SetValueLastWriteWins` | src/components/tags/riff_tag.rs:47-52 | Two writes to one key leave the store as the second write alone would. |
| `Riff.RemoveKeyIdempotent` | src/components/tags/riff_tag.rs:54-56 | Removing a key twice is the same as removing it once. |
| `Riff.Title` | src/components/tags/riff_tag.rs:60-62 | `title` is present exactly when `INAM` is stored, and is then its value. |
| `Riff.RiffTag.SetTitle` | src/components/tags/riff_tag.rs:63-65 | Writes `INAM` only. The title becomes the argument and no other getter changes. |
| `Riff.RiffTag.RemoveTitle` | src/components/tags/riff_tag.rs:66-68 | Deletes `INAM` only. The title becomes `None` and no other getter changes. |
| `Riff.ArtistStr` | src/components/tags/riff_tag.rs:70-72 | `artist_str` is present exactly when `IART` is stored, and is then its value. |
| `Riff.RiffTag.SetArtist` | src/components/tags/riff_tag.rs:73-75 | Writes `IART` only. The artist becomes the argument and no other getter changes. |
| `Riff.RiffTag.RemoveArtist` | src/components/tags/riff_tag.rs:76-78 | Deletes `IART` only. The artist becomes `None` and no other getter changes. |
| `Riff.Date` | src/components/tags/riff_tag.rs:80-82 | `date` is present exactly when `ICRD` is stored, and is then its value. |
| `Riff.RiffTag.SetDate` | src/components/tags/riff_tag.rs:83-85 | Writes `ICRD` only. The date becomes the argument and no other getter changes. |
| `Riff.RiffTag.RemoveDate` | src/components/tags/riff_tag.rs:86-88 | Deletes `ICRD` only. The date becomes `None` and no other getter changes. |
| `Riff.Copyright` | src/components/tags/riff_tag.rs:90-92 | `copyright` is present exactly when `ICOP` is stored, and is then its value. |
| `Riff.RiffTag.SetCopyright` | src/components/tags/riff_tag.rs:93-95 | Writes `ICOP` only. The copyright becomes the argument and no other getter changes. |
| `Riff.RiffTag.RemoveCopyright` | src/components/tags/riff_tag.rs:96-98 | Deletes `ICOP` only. The copyright becomes `None` and no other getter changes. |
| `Riff.Genre` | src/components/tags/riff_tag.rs:100-102 | `genre` is present exactly when `IGNR` is stored, and is then its value. |
| `Riff.RiffTag.SetGenre` | src/components/tags/riff_tag.rs:103-105 | Writes `IGNR` only. The genre becomes the argument and no other getter changes. |
| `Riff.RiffTag.RemoveGenre` | src/components/tags/riff_tag.rs:106-108 | Deletes `IGNR` only. The genre becomes `None` and no other getter changes. |
| `Riff.AlbumTitle` | src/components/tags/riff_tag.rs:110-112 | The album title is the `IPRD` value whenever `IPRD` is stored. Otherwise it is the `ALBU` value. It is `None` only when neither is stored. |
| `Riff.RiffTag.SetAlbumTitle` | src/components/tags/riff_tag.rs:113-115 | Writes `IPRD` only, so an `ALBU` entry stays. The album title becomes the argument and no other getter changes. |
| `Riff.RiffTag.RemoveAlbumTitle` | src/components/tags/riff_tag.rs:116-118 | Deletes `IPRD` only. The album title becomes whatever `ALBU` holds, and no other getter changes. |
| `Riff.AlbumTitleAfterRemove` | src/components/tags/riff_tag.rs:110-118 | After removing the album title, the getter returns the old `ALBU` value, if any. |
| `Riff.ParseField` | src/components/tags/riff_tag.rs:120-131 | Soft-fail parse: a stored value reads as `Some(n)` exactly when its text parses to `n`. Missing or unparseable text gives `None`, never an error. |
| `Riff.TrackNumber` | src/components/tags/riff_tag.rs:120-131 | The first present identifier among `ITRK`, `IPRT` and `TRAC` alone decides the result, through the soft-fail parse. The result is `None` when none of them is present. |
| `Riff.TrackNumberFirstCandidateDecides` | src/components/tags/riff_tag.rs:120-131 | An unparseable `ITRK` gives `None` even when `IPRT` or `TRAC` holds a valid number. |
| `Riff.RiffTag.SetTrackNumber` | src/components/tags/riff_tag.rs:133-135 | Writes the decimal text of `n` under `ITRK`. The track number becomes `Some(n)` and no other getter changes. |
| `Riff.TrackNumberRoundTrip` | src/components/tags/riff_tag.rs:120-135 | On any store, `set_track_number(n)` then `track_number()` gives `Some(n)`, and only that getter changes. |
| `Riff.RiffTag.RemoveTrackNumber` | src/components/tags/riff_tag.rs:137-139 | Deletes `ITRK` only. The track number becomes the soft-fail parse of `IPRT`, or of `TRAC` when `IPRT` is absent. It is `None` when neither `IPRT` nor `TRAC` is present, or when the first of them that is present does not parse. |
| `Riff.TotalTracks` | src/components/tags/riff_tag.rs:141-147 | `total_tracks` is `Some(n)` exactly when `IFRM` is stored and parses to `n`. |
| `Riff.RiffTag.SetTotalTracks` | src/components/tags/riff_tag.rs:149-151 | Writes the decimal text of `n` under `IFRM`. Total tracks becomes `Some(n)` and no other getter changes. |
| `Riff.TotalTracksRoundTrip` | src/components/tags/riff_tag.rs:141-151 | On any store, `set_total_tracks(n)` then `total_tracks()` gives `Some(n)`. |
| `Riff.RiffTag.RemoveTotalTracks` | src/components/tags/riff_tag.rs:153-155 | Deletes `IFRM` only. Total tracks becomes `None`. |
| `Riff.DiscNumber` | src/components/tags/riff_tag.rs:157-163 | `disc_number` is `Some(n)` exactly when `DISC` is stored and parses to `n`. |
| `Riff.TotalTracksFailSoft` | src/components/tags/riff_tag.rs:141-147 | Unparseable or out-of-range text under `IFRM` makes total tracks `None`, never an error. |
| `Riff.DiscNumberFailSoft` | src/components/tags/riff_tag.rs:157-163 | Unparseable or out-of-range text under `DISC` makes disc number and total discs `None`, never an error. |
| `Riff.RiffTag.SetDiscNumber` | src/components/tags/riff_tag.rs:165-167 | Writes the decimal text of `n` under `DISC`. Disc number and total discs both become `Some(n)`. |
| `Riff.DiscNumberRoundTrip` | src/components/tags/riff_tag.rs:157-167 | On any store, `set_disc_number(n)` then `disc_number()` gives `Some(n)`, and `total_discs()` gives it too. |
| `Riff.RiffTag.RemoveDiscNumber` | src/components/tags/riff_tag.rs:169-171 | Deletes `DISC` only. Disc number and total discs both become `None`. |
| `Riff.TotalDiscs` | src/components/tags/riff_tag.rs:173-175 | `total_discs` reads `DISC` exactly as `disc_number` does. |
| `Riff.TotalDiscsIsDiscNumber` | src/components/tags/riff_tag.rs:173-175 | `total_discs() == disc_number()` on every store. |
| `Riff.RiffTag.SetTotalDiscs` | src/components/tags/riff_tag.rs:177-179 | An alias of `set_disc_number`: writes `DISC`, so the disc number becomes `n` as well. |
| `Riff.RiffTag.RemoveTotalDiscs` | src/components/tags/riff_tag.rs:181-183 | An alias of `remove_disc_number`: deletes `DISC`, so both disc getters become `None`. |
| `Riff.InfoListExample` | src/components/tags/riff_tag.rs:60-131 | With `INAM="Song"`, `IART="Band"`, `ITRK="3"`: title `"Song"`, artist `"Band"`, track number 3. After `remove_title` the title is `None` and the track number is still 3. |
| `Riff.TrackAndTotalExample` | src/components/tags/riff_tag.rs:133-155 | On a new tag, setting track number 5 and then total tracks 12 reads back 5 and 12. |

## Left out

- `RiffTag::read_from` and `write_to` (src/components/tags/riff_tag.rs:30-39, 187-189) are left out. They delegate to the RIFF chunk reader and writer in `components::logic::riff`, which is not part of this model, and they work on streams and files.
- The code generated by the `impl_tag` attribute macro is not visible and is not modelled. This covers `new`, the `AudioTag` and `ToAnyTag` plumbing and the `AnyTag` conversions. The model's constructor stands for `RiffInnerTag::default`, which that code uses for an empty tag.
- The MP4 adapter (src/components/tags/mp4_tag.rs) is left out. Every accessor there forwards to an external library whose behaviour is not visible.
- `HashMap` iteration order is not modelled. It is unspecified and matters only when the store is serialised. The store is a Dafny `map`.
- The two structs `RiffTag` and `RiffInnerTag` are one class here. Its `data` field is the `HashMap`.
- Borrowed versus owned strings are not modelled. Strings are values, so `date` returning an owned `String` and the other getters returning `&str` look the same here.
- Strings are sequences of Unicode characters, not UTF-8 bytes. The parse rejects every non-ASCII-digit character, as Rust's byte-wise parse rejects every byte of such a character, so the outcome is the same.
- A lone `+` given to the parse reports `InvalidDigit`, as current Rust does. Older Rust releases reported `Empty` for it. Both are errors, and the getters map every error to `None`, so the adapter's behaviour does not depend on the kind.

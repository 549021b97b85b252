/**
 * The RIFF INFO tag adapter: an in-memory store from four-character INFO
 * identifiers to text, and the key map through which the uniform tag-editing
 * operations (title, artist, album, track and disc numbers, ...) read and
 * write that store.
 *
 * Reads may consult several identifiers in precedence order; writes and
 * removals touch one canonical identifier only. Numeric fields are stored as
 * decimal text, and text that does not parse reads as absent.
 */
module Riff {
  import opened Wrappers
  import opened Decimal

  /** The contents of the store: INFO identifier to value. */
  type Store = map<string, string>

  // INFO identifiers of the RIFF specification (Multimedia Programming
  // Interface and Data Specifications 1.0, INFO list chunk).
  const TitleId: string := "INAM"
  const ArtistId: string := "IART"
  const DateId: string := "ICRD"
  const CopyrightId: string := "ICOP"
  const GenreId: string := "IGNR"
  const ProductId: string := "IPRD"

  // De-facto identifiers written by other taggers.
  const AlbumId: string := "ALBU"
  const TrackId: string := "ITRK"
  const PartId: string := "IPRT"
  const TracId: string := "TRAC"
  const TotalTracksId: string := "IFRM"
  const DiscId: string := "DISC"

  // ---------------------------------------------------------------------
  // Store primitives

  /** `get_value`: the value stored under `key`, absent when there is none. */
  function GetValue(data: Store, key: string): (r: Option<string>)
    ensures r.Some? <==> key in data
    ensures r.Some? ==> r.value == data[key]
  {
    if key in data then Some(data[key]) else None
  }

  /** The store after `HashMap::insert`: `key` now holds `val`, whatever it held before, and no other entry changes. */
  function Inserted(data: Store, key: string, val: string): (r: Store)
    ensures GetValue(r, key) == Some(val)
    ensures forall k :: k != key ==> GetValue(r, k) == GetValue(data, k)
    ensures r.Keys == data.Keys + {key}
  {
    data[key := val]
  }

  /** The store after `HashMap::remove`: `key` is gone and no other entry changes. */
  function Removed(data: Store, key: string): (r: Store)
    ensures GetValue(r, key) == None
    ensures forall k :: k != key ==> GetValue(r, k) == GetValue(data, k)
    ensures r.Keys == data.Keys - {key}
  {
    data - {key}
  }

  // ---------------------------------------------------------------------
  // Getters of the key map

  /** `title`: the `INAM` entry. */
  function Title(data: Store): (r: Option<string>)
    ensures r.Some? <==> TitleId in data
    ensures r.Some? ==> r.value == data[TitleId]
  {
    GetValue(data, TitleId)
  }

  /** `artist_str`: the `IART` entry. */
  function ArtistStr(data: Store): (r: Option<string>)
    ensures r.Some? <==> ArtistId in data
    ensures r.Some? ==> r.value == data[ArtistId]
  {
    GetValue(data, ArtistId)
  }

  /** `date`: an owned copy of the `ICRD` entry. */
  function Date(data: Store): (r: Option<string>)
    ensures r.Some? <==> DateId in data
    ensures r.Some? ==> r.value == data[DateId]
  {
    GetValue(data, DateId)
  }

  /** `copyright`: the `ICOP` entry. */
  function Copyright(data: Store): (r: Option<string>)
    ensures r.Some? <==> CopyrightId in data
    ensures r.Some? ==> r.value == data[CopyrightId]
  {
    GetValue(data, CopyrightId)
  }

  /** `genre`: the `IGNR` entry. */
  function Genre(data: Store): (r: Option<string>)
    ensures r.Some? <==> GenreId in data
    ensures r.Some? ==> r.value == data[GenreId]
  {
    GetValue(data, GenreId)
  }

  /** `album_title`: `IPRD` wins whenever it is present; `ALBU` is read only in its absence. */
  function AlbumTitle(data: Store): (r: Option<string>)
    ensures ProductId in data ==> r == Some(data[ProductId])
    ensures ProductId !in data && AlbumId in data ==> r == Some(data[AlbumId])
    ensures r.None? <==> ProductId !in data && AlbumId !in data
  {
    GetValue(data, ProductId).OrElse(GetValue(data, AlbumId))
  }

  /**
   * The `.map(str::parse::<u32>)` followed by `if let Some(Ok(n))` of the
   * numeric getters: stored text that does not parse reads as absent, and no
   * error ever leaves the getter.
   */
  function ParseField(stored: Option<string>): (r: Option<u32>)
    ensures r.Some? <==> stored.Some? && ParseU32(stored.value).Ok?
    ensures r.Some? ==> r.value == ParseU32(stored.value).value
  {
    match stored
    case None => None
    case Some(text) =>
      match ParseU32(text)
      case Ok(n) => Some(n)
      case Err(_) => None
  }

  /**
   * `track_number`: the first identifier present among `ITRK`, `IPRT` and
   * `TRAC` decides alone; its text is parsed, and a later candidate is never
   * consulted, even when the first one does not parse.
   */
  function TrackNumber(data: Store): (r: Option<u32>)
    ensures TrackId in data ==> r == ParseField(Some(data[TrackId]))
    ensures TrackId !in data && PartId in data ==> r == ParseField(Some(data[PartId]))
    ensures TrackId !in data && PartId !in data && TracId in data ==> r == ParseField(Some(data[TracId]))
    ensures TrackId !in data && PartId !in data && TracId !in data ==> r == None
  {
    ParseField(GetValue(data, TrackId).OrElse(GetValue(data, PartId)).OrElse(GetValue(data, TracId)))
  }

  /** `total_tracks`: the `IFRM` entry read as a `u32`, absent when missing or not a number. */
  function TotalTracks(data: Store): (r: Option<u32>)
    ensures r.Some? <==> TotalTracksId in data && ParseU32(data[TotalTracksId]).Ok?
    ensures r.Some? ==> r.value == ParseU32(data[TotalTracksId]).value
  {
    ParseField(GetValue(data, TotalTracksId))
  }

  /** `disc_number`: the `DISC` entry read as a `u32`, absent when missing or not a number. */
  function DiscNumber(data: Store): (r: Option<u32>)
    ensures r.Some? <==> DiscId in data && ParseU32(data[DiscId]).Ok?
    ensures r.Some? ==> r.value == ParseU32(data[DiscId]).value
  {
    ParseField(GetValue(data, DiscId))
  }

  /** `total_discs`: forwards to `disc_number`, so it too reads the `DISC` entry. */
  function TotalDiscs(data: Store): (r: Option<u32>)
    ensures r.Some? <==> DiscId in data && ParseU32(data[DiscId]).Ok?
    ensures r.Some? ==> r.value == ParseU32(data[DiscId]).value
  {
    DiscNumber(data)
  }

  /** What every getter of the key map reports for one store. */
  datatype FieldView = FieldView(
    title: Option<string>,
    artist: Option<string>,
    date: Option<string>,
    copyright: Option<string>,
    genre: Option<string>,
    albumTitle: Option<string>,
    trackNumber: Option<u32>,
    totalTracks: Option<u32>,
    discNumber: Option<u32>,
    totalDiscs: Option<u32>)

  function View(data: Store): FieldView {
    FieldView(Title(data), ArtistStr(data), Date(data), Copyright(data), Genre(data),
              AlbumTitle(data), TrackNumber(data), TotalTracks(data), DiscNumber(data), TotalDiscs(data))
  }

  const NoFields: FieldView := FieldView(None, None, None, None, None, None, None, None, None, None)

  // ---------------------------------------------------------------------
  // The adapter object

  /** `RiffTag` together with its `RiffInnerTag`: the object owns the store and edits it in place. */
  class RiffTag {
    var data: Store

    /** `RiffInnerTag::default`: a new tag holds nothing, so every getter reports absence. */
    constructor ()
      ensures data == map[]
      ensures View(data) == NoFields
    {
      data := map[];
    }

    /** `set_value`: insert `val` under `key`, replacing any earlier value. */
    method SetValue(key: string, val: string)
      modifies this
      ensures data == Inserted(old(data), key, val)
    {
      data := data[key := val];
    }

    /** `remove_key`: delete the entry under `key`, if any. */
    method RemoveKey(key: string)
      modifies this
      ensures data == Removed(old(data), key)
    {
      data := data - {key};
    }

    method SetTitle(title: string)
      modifies this
      ensures data == Inserted(old(data), TitleId, title)
      ensures View(data) == old(View(data)).(title := Some(title))
    {
      SetValue(TitleId, title);
    }

    method RemoveTitle()
      modifies this
      ensures data == Removed(old(data), TitleId)
      ensures View(data) == old(View(data)).(title := None)
    {
      RemoveKey(TitleId);
    }

    method SetArtist(artist: string)
      modifies this
      ensures data == Inserted(old(data), ArtistId, artist)
      ensures View(data) == old(View(data)).(artist := Some(artist))
    {
      SetValue(ArtistId, artist);
    }

    method RemoveArtist()
      modifies this
      ensures data == Removed(old(data), ArtistId)
      ensures View(data) == old(View(data)).(artist := None)
    {
      RemoveKey(ArtistId);
    }

    method SetDate(date: string)
      modifies this
      ensures data == Inserted(old(data), DateId, date)
      ensures View(data) == old(View(data)).(date := Some(date))
    {
      SetValue(DateId, date);
    }

    method RemoveDate()
      modifies this
      ensures data == Removed(old(data), DateId)
      ensures View(data) == old(View(data)).(date := None)
    {
      RemoveKey(DateId);
    }

    method SetCopyright(copyright: string)
      modifies this
      ensures data == Inserted(old(data), CopyrightId, copyright)
      ensures View(data) == old(View(data)).(copyright := Some(copyright))
    {
      SetValue(CopyrightId, copyright);
    }

    method RemoveCopyright()
      modifies this
      ensures data == Removed(old(data), CopyrightId)
      ensures View(data) == old(View(data)).(copyright := None)
    {
      RemoveKey(CopyrightId);
    }

    method SetGenre(genre: string)
      modifies this
      ensures data == Inserted(old(data), GenreId, genre)
      ensures View(data) == old(View(data)).(genre := Some(genre))
    {
      SetValue(GenreId, genre);
    }

    method RemoveGenre()
      modifies this
      ensures data == Removed(old(data), GenreId)
      ensures View(data) == old(View(data)).(genre := None)
    {
      RemoveKey(GenreId);
    }

    /** `set_album_title` writes `IPRD` only; an `ALBU` entry stays in the store. */
    method SetAlbumTitle(title: string)
      modifies this
      ensures data == Inserted(old(data), ProductId, title)
      ensures View(data) == old(View(data)).(albumTitle := Some(title))
    {
      SetValue(ProductId, title);
    }

    /** `remove_album_title` deletes `IPRD` only, so the album title falls back to `ALBU`. */
    method RemoveAlbumTitle()
      modifies this
      ensures data == Removed(old(data), ProductId)
      ensures View(data) == old(View(data)).(albumTitle := GetValue(old(data), AlbumId))
    {
      RemoveKey(ProductId);
    }

    /** `set_track_number` writes the decimal text under `ITRK`. */
    method SetTrackNumber(trackNumber: u32)
      modifies this
      ensures data == Inserted(old(data), TrackId, ToDecimal(trackNumber as nat))
      ensures View(data) == old(View(data)).(trackNumber := Some(trackNumber))
    {
      SetValue(TrackId, ToDecimal(trackNumber as nat));
      TrackNumberRoundTrip(old(data), trackNumber);
    }

    /** `remove_track_number` deletes `ITRK` only, so an `IPRT` or `TRAC` entry becomes the track number. */
    method RemoveTrackNumber()
      modifies this
      ensures data == Removed(old(data), TrackId)
      ensures View(data) == old(View(data)).(trackNumber := ParseField(GetValue(old(data), PartId).OrElse(GetValue(old(data), TracId))))
    {
      RemoveKey(TrackId);
    }

    method SetTotalTracks(totalTracks: u32)
      modifies this
      ensures data == Inserted(old(data), TotalTracksId, ToDecimal(totalTracks as nat))
      ensures View(data) == old(View(data)).(totalTracks := Some(totalTracks))
    {
      SetValue(TotalTracksId, ToDecimal(totalTracks as nat));
      TotalTracksRoundTrip(old(data), totalTracks);
    }

    method RemoveTotalTracks()
      modifies this
      ensures data == Removed(old(data), TotalTracksId)
      ensures View(data) == old(View(data)).(totalTracks := None)
    {
      RemoveKey(TotalTracksId);
    }

    /** `set_disc_number` writes `DISC`, which the total-discs getter reads as well. */
    method SetDiscNumber(discNumber: u32)
      modifies this
      ensures data == Inserted(old(data), DiscId, ToDecimal(discNumber as nat))
      ensures View(data) == old(View(data)).(discNumber := Some(discNumber), totalDiscs := Some(discNumber))
    {
      SetValue(DiscId, ToDecimal(discNumber as nat));
      DiscNumberRoundTrip(old(data), discNumber);
    }

    method RemoveDiscNumber()
      modifies this
      ensures data == Removed(old(data), DiscId)
      ensures View(data) == old(View(data)).(discNumber := None, totalDiscs := None)
    {
      RemoveKey(DiscId);
    }

    /** `set_total_discs` forwards to `set_disc_number`: it overwrites the disc number. */
    method SetTotalDiscs(totalDiscs: u32)
      modifies this
      ensures data == Inserted(old(data), DiscId, ToDecimal(totalDiscs as nat))
      ensures View(data) == old(View(data)).(discNumber := Some(totalDiscs), totalDiscs := Some(totalDiscs))
    {
      SetDiscNumber(totalDiscs);
    }

    /** `remove_total_discs` forwards to `remove_disc_number`. */
    method RemoveTotalDiscs()
      modifies this
      ensures data == Removed(old(data), DiscId)
      ensures View(data) == old(View(data)).(discNumber := None, totalDiscs := None)
    {
      RemoveDiscNumber();
    }
  }

  // ---------------------------------------------------------------------
  // Properties of the store and the key map

  /** A second `set_value` on the same key leaves the store as if only the second had happened. */
  lemma SetValueLastWriteWins(data: Store, key: string, first: string, second: string)
    ensures Inserted(Inserted(data, key, first), key, second) == Inserted(data, key, second)
  {
  }

  /** `remove_key` is idempotent. */
  lemma RemoveKeyIdempotent(data: Store, key: string)
    ensures Removed(Removed(data, key), key) == Removed(data, key)
  {
  }

  /** After `remove_album_title`, the album title is whatever `ALBU` holds. */
  lemma AlbumTitleAfterRemove(data: Store)
    ensures AlbumTitle(Removed(data, ProductId)) == GetValue(data, AlbumId)
  {
  }

  /** An unparseable `ITRK` hides a valid `IPRT` or `TRAC`: the track number is absent. */
  lemma TrackNumberFirstCandidateDecides(data: Store)
    requires TrackId in data && ParseU32(data[TrackId]).Err?
    ensures TrackNumber(data) == None
  {
  }

  /** `set_track_number(n)` then `track_number()` gives `Some(n)`, whatever the store held. */
  lemma TrackNumberRoundTrip(data: Store, n: u32)
    ensures TrackNumber(Inserted(data, TrackId, ToDecimal(n as nat))) == Some(n)
    ensures View(Inserted(data, TrackId, ToDecimal(n as nat))) == View(data).(trackNumber := Some(n))
  {
    ParseToDecimal(n);
  }

  /** `set_total_tracks(n)` then `total_tracks()` gives `Some(n)`. */
  lemma TotalTracksRoundTrip(data: Store, n: u32)
    ensures TotalTracks(Inserted(data, TotalTracksId, ToDecimal(n as nat))) == Some(n)
    ensures View(Inserted(data, TotalTracksId, ToDecimal(n as nat))) == View(data).(totalTracks := Some(n))
  {
    ParseToDecimal(n);
  }

  /** `set_disc_number(n)`, and so `set_total_discs(n)`, then both `disc_number()` and `total_discs()` give `Some(n)`. */
  lemma DiscNumberRoundTrip(data: Store, n: u32)
    ensures DiscNumber(Inserted(data, DiscId, ToDecimal(n as nat))) == Some(n)
    ensures View(Inserted(data, DiscId, ToDecimal(n as nat))) == View(data).(discNumber := Some(n), totalDiscs := Some(n))
  {
    ParseToDecimal(n);
  }

  /** `total_discs` and `disc_number` always agree. */
  lemma TotalDiscsIsDiscNumber(data: Store)
    ensures TotalDiscs(data) == DiscNumber(data)
  {
  }

  /** Text under `IFRM` that is not a `u32` (malformed or too large) reads as absent. */
  lemma TotalTracksFailSoft(data: Store)
    requires TotalTracksId in data && ParseU32(data[TotalTracksId]).Err?
    ensures TotalTracks(data) == None
  {
  }

  /** Text under `DISC` that is not a `u32` (malformed or too large) makes both disc getters absent. */
  lemma DiscNumberFailSoft(data: Store)
    requires DiscId in data && ParseU32(data[DiscId]).Err?
    ensures DiscNumber(data) == None && TotalDiscs(data) == None
  {
  }

  /** A store holding `INAM="Song"`, `IART="Band"` and `ITRK="3"`, before and after `remove_title`. */
  lemma InfoListExample()
    ensures var data := map[TitleId := "Song", ArtistId := "Band", TrackId := "3"];
      && Title(data) == Some("Song")
      && ArtistStr(data) == Some("Band")
      && TrackNumber(data) == Some(3)
      && Title(Removed(data, TitleId)) == None
      && TrackNumber(Removed(data, TitleId)) == Some(3)
  {
  }

  /** Setting track number 5 and total tracks 12 on a new tag reads back 5 and 12. */
  method TrackAndTotalExample() returns (track: Option<u32>, total: Option<u32>)
    ensures track == Some(5) && total == Some(12)
  {
    var tag := new RiffTag();
    tag.SetTrackNumber(5);
    tag.SetTotalTracks(12);
    track, total := TrackNumber(tag.data), TotalTracks(tag.data);
  }
}

/**
 * `get_artists` (methods.py): the artist column of a track row is the
 * `name` of every artist record of the track, in order, joined by ", ".
 */
module Artists {

  /** An artist record of the music API; only its `name` field is read. */
  datatype ArtistRecord = ArtistRecord(name: string)

  const Separator: string := ", "

  /** `sep.join(parts)`: the parts with `sep` between neighbours. */
  function Join(parts: seq<string>, sep: string): (r: string)
    ensures parts == [] ==> r == ""
    ensures |parts| == 1 ==> r == parts[0]
  {
    if |parts| == 0 then ""
    else if |parts| == 1 then parts[0]
    else parts[0] + sep + Join(parts[1..], sep)
  }

  /** Where `parts[k]` starts in `Join(parts, sep)`. */
  function Offset(parts: seq<string>, sep: string, k: nat): nat
    requires k < |parts|
  {
    if k == 0 then 0 else |parts[0]| + |sep| + Offset(parts[1..], sep, k - 1)
  }

  function TotalLength(parts: seq<string>): nat
  {
    if parts == [] then 0 else |parts[0]| + TotalLength(parts[1..])
  }

  /** The joined string is as long as the parts plus one separator between each pair. */
  lemma {:induction false} JoinLength(parts: seq<string>, sep: string)
    ensures |Join(parts, sep)| == TotalLength(parts) + (if parts == [] then 0 else |parts| - 1) * |sep|
  {
    if parts == [] {
    } else if |parts| == 1 {
      assert parts[1..] == [];
    } else {
      JoinLength(parts[1..], sep);
    }
  }

  /** A slice of `x + y` that lies inside `y` is a slice of `y`. */
  lemma SliceOfSecond(x: string, y: string, a: nat, b: nat)
    requires |x| <= a <= b <= |x| + |y|
    ensures (x + y)[a..b] == y[a - |x|..b - |x|]
  {
    assert forall i :: 0 <= i < b - a ==> (x + y)[a..b][i] == y[a - |x|..b - |x|][i];
  }

  /** The next part starts after this one and one separator. */
  lemma {:induction false} OffsetNext(parts: seq<string>, sep: string, k: nat)
    requires k + 1 < |parts|
    ensures Offset(parts, sep, k + 1) == Offset(parts, sep, k) + |parts[k]| + |sep|
  {
    if k > 0 {
      OffsetNext(parts[1..], sep, k - 1);
    }
  }

  /**
   * Every part appears, unchanged, at its offset, and a separator follows
   * it unless it is the last: the parts are joined in input order.
   */
  lemma {:induction false} JoinAt(parts: seq<string>, sep: string, k: nat)
    requires k < |parts|
    ensures Offset(parts, sep, k) + |parts[k]| <= |Join(parts, sep)|
    ensures Join(parts, sep)[Offset(parts, sep, k)..Offset(parts, sep, k) + |parts[k]|] == parts[k]
    ensures k + 1 < |parts| ==>
              Offset(parts, sep, k) + |parts[k]| + |sep| <= |Join(parts, sep)| &&
              Join(parts, sep)[Offset(parts, sep, k) + |parts[k]|..Offset(parts, sep, k) + |parts[k]| + |sep|] == sep
  {
    var j := Join(parts, sep);
    if |parts| == 1 {
    } else {
      var pre, rest := parts[0] + sep, Join(parts[1..], sep);
      assert j == pre + rest;
      if k == 0 {
        assert j[..|parts[0]|] == parts[0];
        assert j[|parts[0]|..|parts[0]| + |sep|] == sep;
      } else {
        JoinAt(parts[1..], sep, k - 1);
        var o, n := Offset(parts[1..], sep, k - 1), |parts[k]|;
        assert Offset(parts, sep, k) == |pre| + o;
        SliceOfSecond(pre, rest, |pre| + o, |pre| + o + n);
        if k + 1 < |parts| {
          SliceOfSecond(pre, rest, |pre| + o + n, |pre| + o + n + |sep|);
        }
      }
    }
  }

  /** The `name` fields, in order. */
  function Names(artists: seq<ArtistRecord>): (r: seq<string>)
    ensures |r| == |artists|
    ensures forall k :: 0 <= k < |r| ==> r[k] == artists[k].name
  {
    seq(|artists|, k requires 0 <= k < |artists| => artists[k].name)
  }

  /** The artist string of a track, as the ingestion pipeline stores it. */
  function ArtistString(artists: seq<ArtistRecord>): string
  {
    Join(Names(artists), Separator)
  }

  /**
   * Collects the names in a loop, then joins them. No artists give "",
   * one artist gives exactly its name.
   */
  method GetArtists(trackArtists: seq<ArtistRecord>) returns (artist: string)
    ensures artist == ArtistString(trackArtists)
    ensures |trackArtists| == 0 ==> artist == ""
    ensures |trackArtists| == 1 ==> artist == trackArtists[0].name
  {
    var names: seq<string> := [];
    for i := 0 to |trackArtists|
      invariant |names| == i
      invariant forall k :: 0 <= k < i ==> names[k] == trackArtists[k].name
    {
      names := names + [trackArtists[i].name];
    }
    assert names == Names(trackArtists);
    artist := Join(names, Separator);
  }

  /**
   * The artist string holds the k-th artist's name at its offset, followed
   * by ", " and then the next artist's name when another artist comes
   * after it.
   */
  lemma ArtistStringInOrder(artists: seq<ArtistRecord>, k: nat)
    requires k < |artists|
    ensures var s, o := ArtistString(artists), Offset(Names(artists), Separator, k);
            o + |artists[k].name| <= |s| &&
            s[o..o + |artists[k].name|] == artists[k].name &&
            (k + 1 < |artists| ==>
               o + |artists[k].name| + 2 <= |s| &&
               s[o + |artists[k].name|..o + |artists[k].name| + 2] == ", " &&
               Offset(Names(artists), Separator, k + 1) == o + |artists[k].name| + 2)
  {
    JoinAt(Names(artists), Separator, k);
    if k + 1 < |artists| {
      OffsetNext(Names(artists), Separator, k);
    }
  }
}

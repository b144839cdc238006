/**
 * The music player: display names derived from the audio file paths,
 * the playlist order (preferred titles first, the rest sorted by the
 * locale's collation), and the player state the buttons and the `ended`
 * event update.
 */
module Music {
  import opened Geometry

  // ------------------------------------------------------------ track names

  /** The index of the last occurrence of `c` in `s`. */
  function LastIndexOf(s: string, c: char): (r: Option<nat>)
    ensures r.None? <==> c !in s
    ensures r.None? ==> forall j :: 0 <= j < |s| ==> s[j] != c
    ensures r.Some? ==> r.value < |s| && s[r.value] == c && c !in s[r.value + 1..]
    ensures r.Some? ==> forall j :: r.value < j < |s| ==> s[j] != c
    decreases |s|
  {
    if s == [] then None
    else if s[|s| - 1] == c then Some(|s| - 1)
    else
      var r := LastIndexOf(s[..|s| - 1], c);
      assert s == s[..|s| - 1] + [s[|s| - 1]];
      if r.Some? then
        assert s[r.value + 1..] == s[..|s| - 1][r.value + 1..] + [s[|s| - 1]];
        r
      else r
  }

  /** `path.split('/').pop() ?? path`: the text after the last '/', all of it when there is none. */
  function LastSegment(path: string): (name: string)
    ensures '/' !in name
    ensures '/' !in path ==> name == path
    ensures '/' in path ==> exists k :: 0 <= k < |path| && path[k] == '/' && name == path[k + 1..]
  {
    match LastIndexOf(path, '/')
    case None => path
    case Some(k) => path[k + 1..]
  }

  /**
   * Where the pattern `\.[^/.]+$` matches in `s`: a '.', then at least one
   * character up to the end, none of which is '.' or '/'.
   */
  ghost predicate ExtensionAt(s: string, i: int) {
    0 <= i < |s| - 1 && s[i] == '.' && forall j :: i < j < |s| ==> s[j] != '.' && s[j] != '/'
  }

  /** The pattern can match in at most one place. */
  lemma {:induction false} ExtensionUnique(s: string, i: int, j: int)
    requires ExtensionAt(s, i) && ExtensionAt(s, j)
    ensures i == j
  {
  }

  /**
   * `replace(/\.[^/.]+$/, '')`: cut the string at the match of the
   * extension pattern, if there is one; otherwise leave it as it is.
   */
  function StripExtension(s: string): (r: string)
    ensures (exists i :: ExtensionAt(s, i)) ==> ExtensionAt(s, |r|) && r == s[..|r|]
    ensures (forall i :: !ExtensionAt(s, i)) ==> r == s
  {
    match LastIndexOf(s, '.')
    case None => s
    case Some(k) =>
      OnlyAtLastDot(s, k);
      if k < |s| - 1 && forall j :: k < j < |s| ==> s[j] != '/' then
        assert ExtensionAt(s, k);
        s[..k]
      else
        s
  }

  /** A match of the extension pattern can only start at the last '.'. */
  lemma {:induction false} OnlyAtLastDot(s: string, k: nat)
    requires k < |s| && s[k] == '.' && forall j :: k < j < |s| ==> s[j] != '.'
    ensures forall i :: ExtensionAt(s, i) ==> i == k
  {
  }

  /**
   * `formatTrackName`: the last path segment, URI-decoded by `decode`
   * (None when the decoder throws), without its extension.
   */
  function FormatTrackName(decode: string -> Option<string>, path: string): (r: Option<string>)
    ensures r.None? <==> decode(LastSegment(path)).None?
    ensures r.Some? ==> r.value == StripExtension(decode(LastSegment(path)).value)
  {
    match decode(LastSegment(path))
    case None => None
    case Some(decoded) => Some(StripExtension(decoded))
  }

  // -------------------------------------------------------------- ordering

  datatype Track = Track(name: string, src: string)

  /** The titles that go first, in this order. */
  const PreferredOrder: seq<string> := ["Matt吕彦良 - 小心温差", "陶喆 - 飞机场的10_30", "才二十三 - 方大同"]

  /** `Object.entries(modules).map(...)`: one track per file, None if a name does not decode. */
  function AllTracks(decode: string -> Option<string>, entries: seq<(string, string)>): (r: Option<seq<Track>>)
    ensures r.Some? ==> |r.value| == |entries|
    ensures r.Some? ==> forall i :: 0 <= i < |entries| ==>
              Some(r.value[i].name) == FormatTrackName(decode, entries[i].0) && r.value[i].src == entries[i].1
    ensures r.None? ==> exists i :: 0 <= i < |entries| && FormatTrackName(decode, entries[i].0).None?
    decreases |entries|
  {
    if entries == [] then Some([])
    else
      match FormatTrackName(decode, entries[0].0)
      case None => None
      case Some(name) =>
        match AllTracks(decode, entries[1..])
        case None => None
        case Some(rest) => Some([Track(name, entries[0].1)] + rest)
  }

  /** `tracks.find((track) => track.name === name)`: the first track with that name. */
  function Find(tracks: seq<Track>, name: string): (r: Option<Track>)
    ensures r.None? <==> forall i :: 0 <= i < |tracks| ==> tracks[i].name != name
    ensures r.Some? ==> r.value in tracks && r.value.name == name
    ensures r.Some? ==> exists i :: 0 <= i < |tracks| && tracks[i] == r.value &&
                          forall j :: 0 <= j < i ==> tracks[j].name != name
    decreases |tracks|
  {
    if tracks == [] then None
    else if tracks[0].name == name then Some(tracks[0])
    else
      var r := Find(tracks[1..], name);
      if r.Some? then
        var i :| 0 <= i < |tracks[1..]| && tracks[1..][i] == r.value &&
                 forall j :: 0 <= j < i ==> tracks[1..][j].name != name;
        assert tracks[i + 1] == r.value && forall j :: 0 <= j < i + 1 ==> tracks[j].name != name;
        r
      else
        r
  }

  function Names(tracks: seq<Track>): (names: seq<string>)
    ensures |names| == |tracks| && forall i :: 0 <= i < |tracks| ==> names[i] == tracks[i].name
  {
    seq(|tracks|, i requires 0 <= i < |tracks| => tracks[i].name)
  }

  lemma {:induction false} NamesAppend(a: seq<Track>, b: seq<Track>)
    ensures Names(a + b) == Names(a) + Names(b)
  {
  }

  /** The preferred titles that some track has, in preferred order (see `Find` for "has"). */
  function PresentNames(preferred: seq<string>, tracks: seq<Track>): seq<string>
    decreases |preferred|
  {
    if preferred == [] then []
    else (if Find(tracks, preferred[0]).Some? then [preferred[0]] else []) + PresentNames(preferred[1..], tracks)
  }

  /**
   * `preferredOrder.map(find).filter(Boolean)`: for each preferred title
   * that exists, in preferred order, the first track carrying it.
   */
  function Ordered(preferred: seq<string>, tracks: seq<Track>): (r: seq<Track>)
    ensures Names(r) == PresentNames(preferred, tracks)
    ensures forall k :: 0 <= k < |r| ==> Find(tracks, r[k].name) == Some(r[k])
    decreases |preferred|
  {
    if preferred == [] then []
    else
      var rest := Ordered(preferred[1..], tracks);
      match Find(tracks, preferred[0])
      case None =>
        assert PresentNames(preferred, tracks) == PresentNames(preferred[1..], tracks);
        rest
      case Some(t) =>
        var r := [t] + rest;
        assert t.name == preferred[0];
        NamesAppend([t], rest);
        assert Names(r) == [preferred[0]] + PresentNames(preferred[1..], tracks);
        assert forall k :: 0 <= k < |r| ==> Find(tracks, r[k].name) == Some(r[k]) by {
          forall k | 0 <= k < |r|
            ensures Find(tracks, r[k].name) == Some(r[k])
          {
            if k > 0 {
              assert r[k] == rest[k - 1];
            }
          }
        }
        r
  }

  /** `a` is `b` with some elements deleted: what is kept stays in its order. */
  ghost predicate SubsequenceOf(a: seq<Track>, b: seq<Track>)
    decreases |b|
  {
    if a == [] then true
    else if b == [] then false
    else (a[0] == b[0] && SubsequenceOf(a[1..], b[1..])) || SubsequenceOf(a, b[1..])
  }

  /** `.filter((track) => !preferredOrder.includes(track.name))`: the non-preferred tracks, in input order. */
  function NotPreferred(preferred: seq<string>, tracks: seq<Track>): (r: seq<Track>)
    ensures forall k :: 0 <= k < |r| ==> r[k].name !in preferred
    ensures forall t :: t in tracks && t.name !in preferred ==> t in r
    ensures multiset(r) <= multiset(tracks)
    ensures SubsequenceOf(r, tracks)
    decreases |tracks|
  {
    if tracks == [] then []
    else
      var rest := NotPreferred(preferred, tracks[1..]);
      assert tracks == [tracks[0]] + tracks[1..];
      if tracks[0].name in preferred then rest
      else
        assert ([tracks[0]] + rest)[1..] == rest;
        [tracks[0]] + rest
  }

  /**
   * The collation `localeCompare(…, 'zh-Hans-CN')` induces on names,
   * taken as given: `le(a, b)` when `a` sorts no later than `b`.
   */
  ghost predicate TotalPreorder(le: (string, string) -> bool) {
    && (forall a, b :: le(a, b) || le(b, a))
    && (forall a, b, c :: le(a, b) && le(b, c) ==> le(a, c))
  }

  ghost predicate SortedBy(le: (string, string) -> bool, tracks: seq<Track>) {
    forall i, j :: 0 <= i < j < |tracks| ==> le(tracks[i].name, tracks[j].name)
  }

  /** Insert `t` before the first track that does not sort before it. */
  function Insert(le: (string, string) -> bool, t: Track, sorted: seq<Track>): (r: seq<Track>)
    requires TotalPreorder(le) && SortedBy(le, sorted)
    ensures SortedBy(le, r)
    ensures multiset(r) == multiset(sorted) + multiset{t}
    decreases |sorted|
  {
    if sorted == [] then [t]
    else if le(t.name, sorted[0].name) then
      [t] + sorted
    else
      assert le(sorted[0].name, t.name);
      var rest := Insert(le, t, sorted[1..]);
      assert sorted == [sorted[0]] + sorted[1..];
      assert forall k :: 0 <= k < |rest| ==> le(sorted[0].name, rest[k].name) by {
        forall k | 0 <= k < |rest| ensures le(sorted[0].name, rest[k].name) {
          assert rest[k] in multiset(sorted[1..]) + multiset{t};
          if rest[k] != t {
            var j :| 0 <= j < |sorted[1..]| && sorted[1..][j] == rest[k];
            assert sorted[j + 1] == rest[k];
          }
        }
      }
      [sorted[0]] + rest
  }

  /** `a` and `b` compare equal: the collation puts neither before the other. */
  ghost predicate Tied(le: (string, string) -> bool, a: string, b: string) {
    le(a, b) && le(b, a)
  }

  /** The tracks whose name compares equal to `name`, in their order in `tracks`. */
  ghost function TiedWith(le: (string, string) -> bool, tracks: seq<Track>, name: string): seq<Track>
    decreases |tracks|
  {
    if tracks == [] then []
    else (if Tied(le, tracks[0].name, name) then [tracks[0]] else []) + TiedWith(le, tracks[1..], name)
  }

  /**
   * Inserting `t` puts it ahead of every track it compares equal to: among
   * the tracks tied with any name, `t` comes first and the others keep their order.
   */
  lemma {:induction false} InsertStable(le: (string, string) -> bool, t: Track, sorted: seq<Track>, name: string)
    requires TotalPreorder(le) && SortedBy(le, sorted)
    ensures TiedWith(le, Insert(le, t, sorted), name) ==
            (if Tied(le, t.name, name) then [t] else []) + TiedWith(le, sorted, name)
    decreases |sorted|
  {
    if sorted == [] {
      assert Insert(le, t, sorted) == [t];
      assert TiedWith(le, [t], name) == (if Tied(le, t.name, name) then [t] else []) + TiedWith(le, [], name);
    } else if le(t.name, sorted[0].name) {
      var r := Insert(le, t, sorted);
      assert r == [t] + sorted && r[1..] == sorted;
    } else {
      var head, tail := sorted[0], sorted[1..];
      assert sorted == [head] + tail;
      InsertStable(le, t, tail, name);
      var r := Insert(le, t, sorted);
      assert r == [head] + Insert(le, t, tail) && r[1..] == Insert(le, t, tail);
      // `t` sorts strictly after `head`, so the two cannot both be tied with `name`.
      assert !(Tied(le, t.name, name) && Tied(le, head.name, name));
    }
  }

  /**
   * The sort of `Array.prototype.sort` under `le`, which is stable: the
   * result is sorted, a permutation of the input, and tracks that compare
   * equal keep their input order.
   */
  function SortByName(le: (string, string) -> bool, tracks: seq<Track>): (r: seq<Track>)
    requires TotalPreorder(le)
    ensures SortedBy(le, r)
    ensures multiset(r) == multiset(tracks)
    ensures forall name :: TiedWith(le, r, name) == TiedWith(le, tracks, name)
    decreases |tracks|
  {
    if tracks == [] then []
    else
      assert tracks == [tracks[0]] + tracks[1..];
      var rest := SortByName(le, tracks[1..]);
      assert forall name :: TiedWith(le, Insert(le, tracks[0], rest), name) == TiedWith(le, tracks, name) by {
        forall name ensures TiedWith(le, Insert(le, tracks[0], rest), name) == TiedWith(le, tracks, name) {
          InsertStable(le, tracks[0], rest, name);
        }
      }
      Insert(le, tracks[0], rest)
  }

  /** The `tracks` memo: the preferred tracks that exist, then every other track sorted by name. */
  function Playlist(le: (string, string) -> bool, preferred: seq<string>, all: seq<Track>): (r: seq<Track>)
    requires TotalPreorder(le)
    ensures var n := |PresentNames(preferred, all)|;
            && n <= |r|
            && Names(r[..n]) == PresentNames(preferred, all)
            && (forall k :: 0 <= k < n ==> Find(all, r[k].name) == Some(r[k]))
            && (forall k :: n <= k < |r| ==> r[k].name !in preferred)
            && SortedBy(le, r[n..])
            && (forall name :: TiedWith(le, r[n..], name) == TiedWith(le, NotPreferred(preferred, all), name))
            && multiset(r[n..]) == multiset(NotPreferred(preferred, all))
  {
    var ordered := Ordered(preferred, all);
    var r := ordered + SortByName(le, NotPreferred(preferred, all));
    assert r[..|ordered|] == ordered && r[|ordered|..] == SortByName(le, NotPreferred(preferred, all));
    assert |ordered| == |PresentNames(preferred, all)|;
    assert forall k :: 0 <= k < |ordered| ==> r[k] == ordered[k];
    forall k | |ordered| <= k < |r| ensures r[k].name !in preferred {
      assert r[k] in multiset(NotPreferred(preferred, all));
    }
    r
  }

  // --------------------------------------------- permutation for distinct names

  predicate NamesDistinct(tracks: seq<Track>) {
    forall i, j :: 0 <= i < j < |tracks| ==> tracks[i].name != tracks[j].name
  }

  predicate Distinct(names: seq<string>) {
    forall i, j :: 0 <= i < j < |names| ==> names[i] != names[j]
  }

  /** The titles of `names` as a set. */
  function NameSet(names: seq<string>): (r: set<string>)
    ensures forall p :: p in r <==> p in names
    decreases |names|
  {
    if names == [] then {} else {names[0]} + NameSet(names[1..])
  }

  /** The tracks whose name is in `names`, in their original order. */
  function Among(tracks: seq<Track>, names: set<string>): seq<Track>
    decreases |tracks|
  {
    if tracks == [] then []
    else (if tracks[0].name in names then [tracks[0]] else []) + Among(tracks[1..], names)
  }

  /** Every track is either among the preferred ones or among the others. */
  lemma {:induction false} SplitByPreference(preferred: seq<string>, tracks: seq<Track>)
    ensures multiset(tracks) == multiset(Among(tracks, NameSet(preferred))) + multiset(NotPreferred(preferred, tracks))
    decreases |tracks|
  {
    if tracks != [] {
      var t, rest := tracks[0], tracks[1..];
      SplitByPreference(preferred, rest);
      assert tracks == [t] + rest;
      var chosen := NameSet(preferred);
      assert Among(tracks, chosen) == (if t.name in chosen then [t] else []) + Among(rest, chosen);
      if t.name in preferred {
        assert NotPreferred(preferred, tracks) == NotPreferred(preferred, rest);
      } else {
        assert NotPreferred(preferred, tracks) == [t] + NotPreferred(preferred, rest);
      }
    }
  }

  lemma {:induction false} AmongUnion(tracks: seq<Track>, a: set<string>, b: set<string>)
    requires a !! b
    ensures multiset(Among(tracks, a + b)) == multiset(Among(tracks, a)) + multiset(Among(tracks, b))
    decreases |tracks|
  {
    if tracks != [] {
      AmongUnion(tracks[1..], a, b);
    }
  }

  lemma {:induction false} AmongNone(tracks: seq<Track>, names: set<string>)
    requires forall i :: 0 <= i < |tracks| ==> tracks[i].name !in names
    ensures Among(tracks, names) == []
    decreases |tracks|
  {
    if tracks != [] {
      AmongNone(tracks[1..], names);
    }
  }

  /** With distinct names, the tracks named `name` are exactly what `Find` returns. */
  lemma {:induction false} AmongOne(tracks: seq<Track>, name: string)
    requires NamesDistinct(tracks)
    ensures Among(tracks, {name}) == match Find(tracks, name) case None => [] case Some(t) => [t]
    decreases |tracks|
  {
    if tracks != [] {
      if tracks[0].name == name {
        AmongNone(tracks[1..], {name});
      } else {
        AmongOne(tracks[1..], name);
      }
    }
  }

  lemma {:induction false} OrderedIsAmong(preferred: seq<string>, tracks: seq<Track>)
    requires NamesDistinct(tracks) && Distinct(preferred)
    ensures multiset(Ordered(preferred, tracks)) == multiset(Among(tracks, NameSet(preferred)))
    decreases |preferred|
  {
    if preferred == [] {
      AmongNone(tracks, {});
    } else {
      var rest := preferred[1..];
      assert Distinct(rest);
      OrderedIsAmong(rest, tracks);
      AmongOne(tracks, preferred[0]);
      assert preferred[0] !in NameSet(rest);
      AmongUnion(tracks, {preferred[0]}, NameSet(rest));
    }
  }

  /** When track names and preferred titles are distinct, the playlist is a permutation of all tracks. */
  lemma {:induction false} PlaylistIsPermutation(le: (string, string) -> bool, preferred: seq<string>, all: seq<Track>)
    requires TotalPreorder(le) && NamesDistinct(all) && Distinct(preferred)
    ensures multiset(Playlist(le, preferred, all)) == multiset(all)
  {
    OrderedIsAmong(preferred, all);
    SplitByPreference(preferred, all);
  }

  /** The three preferred titles differ from each other. */
  lemma {:induction false} PreferredOrderDistinct()
    ensures Distinct(PreferredOrder)
  {
    assert PreferredOrder[0][0] == 'M' && PreferredOrder[1][0] == '陶' && PreferredOrder[2][0] == '才';
  }

  /**
   * The `tracks` memo: every file becomes a track (None when a file name
   * does not decode); the preferred titles that exist come first, in
   * preferred order, then every other track in `le` order. With distinct
   * track names no track is lost or duplicated.
   */
  function TrackList(le: (string, string) -> bool, decode: string -> Option<string>,
                     entries: seq<(string, string)>): (r: Option<seq<Track>>)
    requires TotalPreorder(le)
    ensures r.Some? <==> AllTracks(decode, entries).Some?
    ensures r.Some? ==> var all := AllTracks(decode, entries).value;
            && r.value == Playlist(le, PreferredOrder, all)
            && (NamesDistinct(all) ==> multiset(r.value) == multiset(all))
  {
    var tracks := AllTracks(decode, entries);
    if tracks.None? then None
    else
      var all := tracks.value;
      var r := Playlist(le, PreferredOrder, all);
      assert NamesDistinct(all) ==> multiset(r) == multiset(all) by {
        if NamesDistinct(all) {
          PreferredOrderDistinct();
          PlaylistIsPermutation(le, PreferredOrder, all);
        }
      }
      Some(r)
  }

  // ------------------------------------------------------------ navigation

  /** `(prev + 1) % tracks.length` */
  function NextIndex(i: nat, n: nat): (j: nat)
    requires i < n
    ensures j < n
    ensures i + 1 < n ==> j == i + 1
    ensures i + 1 == n ==> j == 0
  {
    (i + 1) % n
  }

  /** `(prev - 1 + tracks.length) % tracks.length`; the dividend is never negative here. */
  function PrevIndex(i: nat, n: nat): (j: nat)
    requires i < n
    ensures j < n
    ensures 0 < i ==> j == i - 1
    ensures i == 0 ==> j == n - 1
  {
    (i - 1 + n) % n
  }

  /** Next and previous undo each other. */
  lemma {:induction false} NextPrevInverse(i: nat, n: nat)
    requires i < n
    ensures PrevIndex(NextIndex(i, n), n) == i
    ensures NextIndex(PrevIndex(i, n), n) == i
  {
  }

  /** `MusicPlayer`'s state: the playlist, the current index, play/pause, and the audio source. */
  class Player {
    const tracks: seq<Track>
    var currentIndex: nat
    var isPlaying: bool
    var currentTime: real
    var duration: real
    /** The source loaded into the audio element, if any. */
    var src: Option<string>

    ghost predicate Valid()
      reads this
    {
      currentIndex == 0 || currentIndex < |tracks|
    }

    /** The initial state: first track, playing, nothing loaded yet. */
    constructor (tracks: seq<Track>)
      ensures Valid() && this.tracks == tracks
      ensures currentIndex == 0 && isPlaying && src.None?
      ensures currentTime == 0.0 && duration == 0.0
    {
      this.tracks := tracks;
      currentIndex := 0;
      isPlaying := true;
      currentTime := 0.0;
      duration := 0.0;
      src := None;
    }

    /** The track on display, None (nothing rendered) when there are no tracks. */
    function NowPlaying(): (r: Option<Track>)
      requires Valid()
      reads this
      ensures r.None? <==> |tracks| == 0
      ensures r.Some? ==> r.value == tracks[currentIndex]
    {
      if |tracks| == 0 then None else Some(tracks[currentIndex])
    }

    /** The source effect: with no tracks nothing is loaded; otherwise the current track, from its start. */
    method LoadCurrent()
      requires Valid()
      modifies this
      ensures Valid()
      ensures |tracks| == 0 ==> src == old(src) && currentTime == old(currentTime) && duration == old(duration)
      ensures |tracks| > 0 ==> src == Some(tracks[currentIndex].src) && currentTime == 0.0 && duration == 0.0
      ensures currentIndex == old(currentIndex) && isPlaying == old(isPlaying)
    {
      if |tracks| == 0 {
        return;
      }
      src := Some(tracks[currentIndex].src);
      currentTime := 0.0;
      duration := 0.0;
    }

    /** The next button, and the `ended` event (which only a loaded track can raise). */
    method Next()
      requires Valid() && |tracks| > 0
      modifies this
      ensures Valid() && currentIndex == NextIndex(old(currentIndex), |tracks|)
      ensures isPlaying == old(isPlaying) && src == old(src)
      ensures currentTime == old(currentTime) && duration == old(duration)
    {
      currentIndex := (currentIndex + 1) % |tracks|;
    }

    /** The previous button. */
    method Prev()
      requires Valid() && |tracks| > 0
      modifies this
      ensures Valid() && currentIndex == PrevIndex(old(currentIndex), |tracks|)
      ensures isPlaying == old(isPlaying) && src == old(src)
      ensures currentTime == old(currentTime) && duration == old(duration)
    {
      currentIndex := (currentIndex - 1 + |tracks|) % |tracks|;
    }

    /** The play/pause button. */
    method TogglePlay()
      requires Valid()
      modifies this
      ensures Valid() && isPlaying == !old(isPlaying)
      ensures currentIndex == old(currentIndex) && src == old(src)
      ensures currentTime == old(currentTime) && duration == old(duration)
    {
      isPlaying := !isPlaying;
    }

    /** A rejected `play()` promise switches the player to paused. */
    method PlayRejected()
      requires Valid()
      modifies this
      ensures Valid() && !isPlaying
      ensures currentIndex == old(currentIndex) && src == old(src)
      ensures currentTime == old(currentTime) && duration == old(duration)
    {
      isPlaying := false;
    }

    /*
     * A click and the render after it. The source effect depends on
     * `[currentIndex, tracks, isPlaying]`, so it re-runs (`LoadCurrent`)
     * after a render in which the index or the play state changed, and
     * only then.
     */

    /** The play/pause button and its render: the play state flips, so the track is reloaded from 0. */
    method PressPlayPause()
      requires Valid()
      modifies this
      ensures Valid() && isPlaying == !old(isPlaying) && currentIndex == old(currentIndex)
      ensures |tracks| > 0 ==> src == Some(tracks[currentIndex].src) && currentTime == 0.0 && duration == 0.0
      ensures |tracks| == 0 ==> src == old(src) && currentTime == old(currentTime) && duration == old(duration)
    {
      TogglePlay();
      LoadCurrent();
    }

    /**
     * The next button (or the `ended` event) and its render. With two or
     * more tracks the index changes and the next track is loaded from 0;
     * with one track the index stays 0 and nothing is reloaded.
     */
    method PressNext()
      requires Valid() && |tracks| > 0
      modifies this
      ensures Valid() && currentIndex == NextIndex(old(currentIndex), |tracks|) && isPlaying == old(isPlaying)
      ensures |tracks| > 1 ==> src == Some(tracks[currentIndex].src) && currentTime == 0.0 && duration == 0.0
      ensures |tracks| == 1 ==> src == old(src) && currentTime == old(currentTime) && duration == old(duration)
    {
      Next();
      if |tracks| > 1 {
        LoadCurrent();
      }
    }

    /** The previous button and its render, reloading exactly when the index changes. */
    method PressPrev()
      requires Valid() && |tracks| > 0
      modifies this
      ensures Valid() && currentIndex == PrevIndex(old(currentIndex), |tracks|) && isPlaying == old(isPlaying)
      ensures |tracks| > 1 ==> src == Some(tracks[currentIndex].src) && currentTime == 0.0 && duration == 0.0
      ensures |tracks| == 1 ==> src == old(src) && currentTime == old(currentTime) && duration == old(duration)
    {
      Prev();
      if |tracks| > 1 {
        LoadCurrent();
      }
    }

    /**
     * A rejected `play()` and its render: a player that was playing is
     * paused and the track is reloaded from 0; a paused one is unchanged.
     */
    method PlayFailed()
      requires Valid()
      modifies this
      ensures Valid() && !isPlaying && currentIndex == old(currentIndex)
      ensures old(isPlaying) && |tracks| > 0 ==> src == Some(tracks[currentIndex].src) && currentTime == 0.0 && duration == 0.0
      ensures !old(isPlaying) || |tracks| == 0 ==> src == old(src) && currentTime == old(currentTime) && duration == old(duration)
    {
      var was := isPlaying;
      PlayRejected();
      if was {
        LoadCurrent();
      }
    }

    /** The seek slider. */
    method Seek(value: real)
      requires Valid()
      modifies this
      ensures Valid() && currentTime == value
      ensures currentIndex == old(currentIndex) && isPlaying == old(isPlaying) && src == old(src)
      ensures duration == old(duration)
    {
      currentTime := value;
    }
  }
}

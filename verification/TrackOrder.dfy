/** The tracks of an isolation: one a voice, in the order of the voices. */
module TrackOrder {
  datatype Voice = Voice(speaker: string, sample: bool)

  predicate Known(voices: seq<Voice>, speaker: string) {
    exists i :: 0 <= i < |voices| && voices[i].speaker == speaker
  }

  /** order[speaker]: the last place it is written for, and zero for a stranger. */
  function Order(voices: seq<Voice>, speaker: string): (k: nat)
    ensures Known(voices, speaker) ==> k < |voices| && voices[k].speaker == speaker
  {
    if voices == [] then 0
    else if voices[|voices| - 1].speaker == speaker then |voices| - 1
    else Order(voices[..|voices| - 1], speaker)
  }

  ghost predicate InOrder(voices: seq<Voice>, tracks: seq<string>, i: int, j: int) {
    && (0 <= i < |tracks| ==> Known(voices, tracks[i]))
    && (0 <= i < j < |tracks| ==> Order(voices, tracks[i]) < Order(voices, tracks[j]))
  }

  ghost predicate Ordered(voices: seq<Voice>, tracks: seq<string>) {
    forall i, j :: InOrder(voices, tracks, i, j)
  }

  /** No voice has two tracks. */
  lemma OneTrackAVoice(voices: seq<Voice>, tracks: seq<string>, i: nat, j: nat)
    requires Ordered(voices, tracks) && i < j < |tracks|
    ensures tracks[i] != tracks[j]
  {
    assert InOrder(voices, tracks, i, j);
  }

  function Without(tracks: seq<string>, speaker: string): seq<string> {
    if tracks == [] then []
    else (if tracks[0] != speaker then [tracks[0]] else []) + Without(tracks[1..], speaker)
  }

  function Kept(tracks: seq<string>, files: set<string>): seq<string> {
    if tracks == [] then []
    else (if tracks[0] in files then [tracks[0]] else []) + Kept(tracks[1..], files)
  }

  function Place(voices: seq<Voice>, tracks: seq<string>, x: string, n: nat): (k: nat)
    requires n <= |tracks|
    ensures k <= n
  {
    if n == 0 || Order(voices, x) >= Order(voices, tracks[n - 1]) then n else Place(voices, tracks, x, n - 1)
  }

  function Insert(voices: seq<Voice>, tracks: seq<string>, x: string): seq<string> {
    var k := Place(voices, tracks, x, |tracks|);
    tracks[..k] + [x] + tracks[k..]
  }

  /** sort.SliceStable by the order of the voices, of the first n. */
  function SortFirst(voices: seq<Voice>, tracks: seq<string>, n: nat): seq<string>
    requires n <= |tracks|
  {
    if n == 0 then [] else Insert(voices, SortFirst(voices, tracks, n - 1), tracks[n - 1])
  }

  /** putTrackLocked: the voice's previous track goes, the new one is appended, and the tracks are sorted. */
  function PutTrack(voices: seq<Voice>, tracks: seq<string>, speaker: string): seq<string> {
    var all := Without(tracks, speaker) + [speaker];
    SortFirst(voices, all, |all|)
  }

  lemma {:induction false} SortOfOrdered(voices: seq<Voice>, tracks: seq<string>, more: seq<string>, n: nat)
    requires Ordered(voices, tracks) && n <= |tracks|
    ensures SortFirst(voices, tracks + more, n) == tracks[..n]
  {
    if n > 0 {
      SortOfOrdered(voices, tracks, more, n - 1);
      var front, x := tracks[..n - 1], tracks[n - 1];
      assert (tracks + more)[n - 1] == x && InOrder(voices, tracks, n - 2, n - 1);
      assert Place(voices, front, x, n - 1) == n - 1;
      assert Insert(voices, front, x) == front + [x] == tracks[..n];
    }
  }

  lemma {:induction false} PlaceIsRight(voices: seq<Voice>, tracks: seq<string>, x: string, n: nat)
    requires n <= |tracks| && Ordered(voices, tracks) && Known(voices, x) && x !in tracks
    ensures var k := Place(voices, tracks, x, n);
      && (k > 0 ==> Order(voices, tracks[k - 1]) < Order(voices, x))
      && (forall i :: k <= i < n ==> Order(voices, x) < Order(voices, tracks[i]))
  {
    if n > 0 {
      var t := tracks[n - 1];
      assert InOrder(voices, tracks, n - 1, n - 1) && t in tracks;
      Apart(voices, t, x);
      if Order(voices, x) < Order(voices, t) { PlaceIsRight(voices, tracks, x, n - 1); }
    }
  }

  lemma {:induction false} SubOrdered(voices: seq<Voice>, tracks: seq<string>)
    requires Ordered(voices, tracks) && tracks != []
    ensures Ordered(voices, tracks[1..])
  {
    forall i, j ensures InOrder(voices, tracks[1..], i, j) { assert InOrder(voices, tracks, i + 1, j + 1); }
  }

  lemma {:induction false} ConsOrdered(voices: seq<Voice>, x: string, tracks: seq<string>)
    requires Ordered(voices, tracks) && Known(voices, x)
    requires forall i :: 0 <= i < |tracks| ==> Order(voices, x) < Order(voices, tracks[i])
    ensures Ordered(voices, [x] + tracks)
  {
    forall i, j ensures InOrder(voices, [x] + tracks, i, j) { assert InOrder(voices, tracks, i - 1, j - 1); }
  }

  lemma {:induction false} KeptOrdered(voices: seq<Voice>, tracks: seq<string>, files: set<string>)
    requires Ordered(voices, tracks)
    ensures Ordered(voices, Kept(tracks, files))
    ensures forall t :: t in Kept(tracks, files) <==> t in tracks && t in files
  {
    if tracks != [] {
      SubOrdered(voices, tracks);
      KeptOrdered(voices, tracks[1..], files);
      var rest := Kept(tracks[1..], files);
      if tracks[0] in files {
        assert InOrder(voices, tracks, 0, 0);
        forall i | 0 <= i < |rest| ensures Order(voices, tracks[0]) < Order(voices, rest[i]) { Later(voices, tracks, rest[i]); }
        ConsOrdered(voices, tracks[0], rest);
      } else {
        assert Kept(tracks, files) == rest;
      }
    }
  }

  lemma Later(voices: seq<Voice>, tracks: seq<string>, t: string)
    requires Ordered(voices, tracks) && tracks != [] && t in tracks[1..]
    ensures Order(voices, tracks[0]) < Order(voices, t)
  {
    var j :| 0 <= j < |tracks[1..]| && tracks[1..][j] == t;
    assert InOrder(voices, tracks, 0, j + 1);
  }

  lemma {:induction false} WithoutOrdered(voices: seq<Voice>, tracks: seq<string>, speaker: string)
    requires Ordered(voices, tracks)
    ensures Ordered(voices, Without(tracks, speaker))
    ensures forall t :: t in Without(tracks, speaker) <==> t in tracks && t != speaker
  {
    if tracks != [] {
      SubOrdered(voices, tracks);
      WithoutOrdered(voices, tracks[1..], speaker);
      var rest := Without(tracks[1..], speaker);
      if tracks[0] != speaker {
        assert InOrder(voices, tracks, 0, 0);
        forall i | 0 <= i < |rest| ensures Order(voices, tracks[0]) < Order(voices, rest[i]) { Later(voices, tracks, rest[i]); }
        ConsOrdered(voices, tracks[0], rest);
      } else {
        assert Without(tracks, speaker) == rest;
      }
    }
  }

  /** The tracks stay one a voice and in the order of the voices, and exactly the voice's own track is new. */
  lemma PutTrackOrdered(voices: seq<Voice>, tracks: seq<string>, speaker: string)
    requires Ordered(voices, tracks) && Known(voices, speaker)
    ensures Ordered(voices, PutTrack(voices, tracks, speaker))
    ensures forall t :: t in PutTrack(voices, tracks, speaker) <==> t in tracks || t == speaker
  {
    var others := Without(tracks, speaker);
    WithoutOrdered(voices, tracks, speaker);
    SortOfOrdered(voices, others, [speaker], |others|);
    assert others[..|others|] == others;
    assert PutTrack(voices, tracks, speaker) == Insert(voices, others, speaker);
    InsertOrdered(voices, others, speaker);
    InsertHolds(voices, others, speaker);
  }

  lemma InsertHolds(voices: seq<Voice>, others: seq<string>, x: string)
    ensures forall t :: t in Insert(voices, others, x) <==> t in others || t == x
  {
    var k := Place(voices, others, x, |others|);
    assert others == others[..k] + others[k..];
  }

  lemma InsertOrdered(voices: seq<Voice>, others: seq<string>, x: string)
    requires Ordered(voices, others) && Known(voices, x) && x !in others
    ensures Ordered(voices, Insert(voices, others, x))
  {
    var k := Place(voices, others, x, |others|);
    PlaceIsRight(voices, others, x, |others|);
    PutBetween(voices, others, Insert(voices, others, x), x, k);
  }

  /** Two voices are never in one place. */
  lemma Apart(voices: seq<Voice>, a: string, b: string)
    requires Known(voices, a) && Known(voices, b) && a != b
    ensures Order(voices, a) != Order(voices, b)
  {
    var k := Order(voices, a);
    assert voices[k].speaker == a;
  }

  lemma PutBetween(voices: seq<Voice>, s: seq<string>, t: seq<string>, x: string, n: nat)
    requires n <= |s| && |t| == |s| + 1 && t[n] == x && Known(voices, x) && Ordered(voices, s)
    requires forall i :: 0 <= i < n ==> t[i] == s[i]
    requires forall i :: n < i < |t| ==> t[i] == s[i - 1]
    requires n > 0 ==> Order(voices, s[n - 1]) < Order(voices, x)
    requires forall i :: n <= i < |s| ==> Order(voices, x) < Order(voices, s[i])
    ensures Ordered(voices, t)
  {
    forall i, j ensures InOrder(voices, t, i, j) {
      var i', j' := if i < n then i else i - 1, if j < n then j else j - 1;
      assert InOrder(voices, s, i', j') && InOrder(voices, s, i', i') && InOrder(voices, s, i', n - 1);
    }
  }
}

/**
 * The chord resolver: from a root name and an optional chord quality, the
 * ordered MIDI pitches that `playPatchOn` stores and sounds.
 */
module ChordResolver {
  import opened Wrappers
  import opened ResourceManager

  /** Lowest and highest pitch any resolution can produce (C3 and B4). */
  const LowestPitch := 48
  const HighestPitch := 71

  /**
   * What the source demands of a caller: a present root is one of the twelve
   * names, and when a root is present a present quality is in the catalog.
   * With the root absent the quality is never looked up.
   */
  predicate Resolvable(root: Option<string>, chord: Option<string>) {
    root.Some? ==> IsRootName(root.value) && (chord.Some? ==> IsChordStyle(chord.value))
  }

  /** Each interval k taken from the key register at index (k + rootpos) % 12, in order. */
  function KeyStack(ks: seq<int>, rootpos: nat): (r: seq<int>)
    requires rootpos < 12
    requires forall i :: 0 <= i < |ks| ==> 0 <= ks[i] + rootpos
    ensures |r| == |ks|
  {
    if ks == [] then []
    else KeyStack(ks[..|ks| - 1], rootpos) + [GetMidiKeys()[(ks[|ks| - 1] + rootpos) % 12]]
  }

  /** The i-th pitch of the stack is the key-register pitch of the i-th interval. */
  lemma {:induction false} KeyStackAt(ks: seq<int>, rootpos: nat)
    requires rootpos < 12
    requires forall i :: 0 <= i < |ks| ==> 0 <= ks[i] + rootpos
    ensures forall i :: 0 <= i < |ks| ==> KeyStack(ks, rootpos)[i] == GetMidiKeys()[(ks[i] + rootpos) % 12]
  {
    if ks != [] {
      var front := ks[..|ks| - 1];
      var r := KeyStack(ks, rootpos);
      assert r == KeyStack(front, rootpos) + [GetMidiKeys()[(ks[|ks| - 1] + rootpos) % 12]];
      KeyStackAt(front, rootpos);
      forall i | 0 <= i < |ks| - 1 ensures r[i] == GetMidiKeys()[(ks[i] + rootpos) % 12] {
        assert r[i] == KeyStack(front, rootpos)[i] && front[i] == ks[i];
      }
    }
  }

  /** Appending an interval appends its key-register pitch. */
  lemma KeyStackSnoc(ks: seq<int>, k: int, rootpos: nat)
    requires rootpos < 12 && 0 <= k + rootpos
    requires forall i :: 0 <= i < |ks| ==> 0 <= ks[i] + rootpos
    ensures KeyStack(ks + [k], rootpos) == KeyStack(ks, rootpos) + [GetMidiKeys()[(k + rootpos) % 12]]
  {
    assert (ks + [k])[..|ks|] == ks;
  }

  /** True when every pitch in ps lies in LowestPitch .. HighestPitch. */
  predicate InRange(ps: seq<int>) {
    forall i :: 0 <= i < |ps| ==> LowestPitch <= ps[i] <= HighestPitch
  }

  /**
   * The voicing of a chord on a well-formed interval list: the
   * bass-register root, then the key-register stack of its intervals.
   */
  function Voicing(ks: seq<int>, rootpos: nat): (r: seq<int>)
    requires rootpos < 12 && WellFormedIntervals(ks)
    ensures |r| == 1 + |ks| && r[0] == GetMidiBass()[rootpos]
  {
    [GetMidiBass()[rootpos]] + KeyStack(ks, rootpos)
  }

  /** After the bass root, the voicing holds one key-register pitch per interval, in order. */
  lemma VoicingAt(ks: seq<int>, rootpos: nat)
    requires rootpos < 12 && WellFormedIntervals(ks)
    ensures forall i :: 0 <= i < |ks| ==> Voicing(ks, rootpos)[i + 1] == GetMidiKeys()[(ks[i] + rootpos) % 12]
  {
    KeyStackAt(ks, rootpos);
    var r := Voicing(ks, rootpos);
    forall i | 0 <= i < |ks| ensures r[i + 1] == GetMidiKeys()[(ks[i] + rootpos) % 12] {
      assert r[i + 1] == KeyStack(ks, rootpos)[i];
    }
  }

  /** Every pitch of a voicing lies in the two registers, 48 .. 71. */
  lemma VoicingInRange(ks: seq<int>, rootpos: nat)
    requires rootpos < 12 && WellFormedIntervals(ks)
    ensures InRange(Voicing(ks, rootpos))
  {
    VoicingAt(ks, rootpos);
    var r := Voicing(ks, rootpos);
    forall i | 0 <= i < |r| ensures LowestPitch <= r[i] <= HighestPitch {
      if i > 0 {
        assert r[i] == GetMidiKeys()[(ks[i - 1] + rootpos) % 12];
      }
    }
  }

  /**
   * Because every interval list starts with 0, a voicing sounds its root
   * twice: in the bass register and an octave higher in the key register.
   */
  lemma VoicingDoublesRoot(ks: seq<int>, rootpos: nat)
    requires rootpos < 12 && WellFormedIntervals(ks)
    ensures var r := Voicing(ks, rootpos); r[1] == r[0] + 12
  {
    VoicingAt(ks, rootpos);
    assert (ks[0] + rootpos) % 12 == rootpos;
  }

  /**
   * The pitch list that `playPatchOn` builds: nothing without a root, the
   * key-register root alone without a quality, and otherwise the chord's
   * voicing on the root.
   */
  function Resolve(root: Option<string>, chord: Option<string>): (r: seq<int>)
    requires Resolvable(root, chord)
    ensures r == [] <==> root.None?
  {
    match root
    case None => []
    case Some(name) =>
      var rootpos := RootIndex(name);
      match chord
      case None => [GetMidiKeys()[rootpos]]
      case Some(q) =>
        Voicing(GetChordIntervals(q), rootpos)
  }

  /** With no root nothing is resolved, whatever the quality. */
  lemma ResolveNoRoot(chord: Option<string>)
    ensures Resolve(None, chord) == []
  {
  }

  /** A bare root is the one key-register pitch at the root's position. */
  lemma ResolveBareRoot(name: string)
    requires IsRootName(name)
    ensures var pos := RootIndex(name);
      Resolve(Some(name), None) == [GetMidiKeys()[pos]] && GetMidiKeys()[pos] == 60 + pos
  {
  }

  /** Whatever is resolved lies in the two registers, 48 .. 71. */
  lemma ResolveInRange(root: Option<string>, chord: Option<string>)
    requires Resolvable(root, chord)
    ensures InRange(Resolve(root, chord))
  {
    match root
    case None =>
    case Some(name) =>
      match chord
      case None =>
      case Some(q) => VoicingInRange(GetChordIntervals(q), RootIndex(name));
  }

  /** A root with a quality resolves to the voicing of the quality's intervals on the root's position. */
  lemma ResolveIsVoicing(name: string, q: string)
    requires IsRootName(name) && IsChordStyle(q)
    ensures Resolve(Some(name), Some(q)) == Voicing(GetChordIntervals(q), RootIndex(name))
  {
  }

  /**
   * Because every quality starts with interval 0, a chord sounds its root
   * twice: in the bass register and one octave higher in the key register.
   */
  lemma ChordDoublesRoot(name: string, q: string)
    requires IsRootName(name) && IsChordStyle(q)
    ensures var r := Resolve(Some(name), Some(q));
      |r| >= 2 && r[1] == r[0] + 12
  {
    VoicingDoublesRoot(GetChordIntervals(q), RootIndex(name));
  }

  /**
   * The resolved pitches name their root: the first pitch tells the root
   * and whether a quality was given (bass register 48..59 with a quality,
   * key register 60..71 without one).
   */
  lemma ResolveDeterminesRoot(a: string, qa: Option<string>, b: string, qb: Option<string>)
    requires Resolvable(Some(a), qa) && Resolvable(Some(b), qb)
    requires Resolve(Some(a), qa) == Resolve(Some(b), qb)
    ensures a == b && qa.Some? == qb.Some?
  {
    var ra := Resolve(Some(a), qa);
    var pa, pb := RootIndex(a), RootIndex(b);
    assert ra[0] == (if qa.Some? then 48 else 60) + pa;
    assert ra[0] == (if qb.Some? then 48 else 60) + pb;
  }

  /** C major (intervals 0, 4, 7 on root position 0): bass C, then C, E and G above it. */
  lemma MajorVoicingOnC()
    ensures Voicing([0, 4, 7], 0) == [48, 60, 64, 67]
  {
    var ks := [0, 4, 7];
    VoicingAt(ks, 0);
    var r := Voicing(ks, 0);
    assert ks[0] == 0 && ks[1] == 4 && ks[2] == 7;
    assert r[1] == GetMidiKeys()[0] && r[2] == GetMidiKeys()[4] && r[3] == GetMidiKeys()[7];
  }

  /**
   * D minor seventh (intervals 0, 3, 7, 10 on root position 2): the seventh
   * lands at index 10 + 2, which wraps round to C.
   */
  lemma MinorSeventhVoicingOnD()
    ensures Voicing([0, 3, 7, 10], 2) == [50, 62, 65, 69, 60]
  {
    var ks := [0, 3, 7, 10];
    VoicingAt(ks, 2);
    var r := Voicing(ks, 2);
    assert ks[0] == 0 && ks[1] == 3 && ks[2] == 7 && ks[3] == 10;
    assert r[1] == GetMidiKeys()[2] && r[2] == GetMidiKeys()[5] && r[3] == GetMidiKeys()[9];
    assert r[4] == GetMidiKeys()[0];
  }

  /** Playing "C" with quality "M" sounds C3, then C4, E4 and G4. */
  lemma ResolveCMajor()
    ensures Resolvable(Some("C"), Some("M"))
    ensures Resolve(Some("C"), Some("M")) == [48, 60, 64, 67]
  {
    assert RootIndex("C") == 0;
    assert GetChordIntervals("M") == [0, 4, 7];
    MajorVoicingOnC();
  }

  /** Playing "D" with quality "m7" sounds D3, then D4, F4, A4 and the wrapped-round C4. */
  lemma ResolveDMinorSeventh()
    ensures Resolvable(Some("D"), Some("m7"))
    ensures Resolve(Some("D"), Some("m7")) == [50, 62, 65, 69, 60]
  {
    RootD();
    QualityMinorSeventh();
    ResolveIsVoicing("D", "m7");
    MinorSeventhVoicingOnD();
  }

  /** "D" is the third root name. */
  lemma RootD()
    ensures IsRootName("D") && RootIndex("D") == 2
  {
    assert Roots()[0] != "D" && Roots()[1] != "D" && Roots()[2] == "D";
  }

  /** "m7" is the minor seventh, intervals 0, 3, 7 and 10. */
  lemma QualityMinorSeventh()
    ensures IsChordStyle("m7") && GetChordIntervals("m7") == [0, 3, 7, 10]
  {
    var t := ChordIntervals();
    assert t[0].0 != "m7" && t[1].0 != "m7" && t[2].0 != "m7" && t[3].0 != "m7" && t[4].0 != "m7";
    assert t[5] == ("m7", [0, 3, 7, 10]);
    assert Lookup(t[5..], "m7") == Some([0, 3, 7, 10]);
    assert Lookup(t, "m7") == Lookup(t[5..], "m7");
  }
}

/**
 * The static tables of the chord instrument and the `ResourceManager`
 * getters that hand them out: the twelve root names in chromatic order,
 * the chord-quality catalog (quality name to semitone intervals above the
 * root) and the two aligned MIDI pitch tables, one octave apart.
 */
module ResourceManager {
  import opened Wrappers

  /** The twelve root names, in chromatic order starting at C. */
  function Roots(): seq<string> {
    ["C", "Db", "D", "Eb", "E", "F", "Gb", "G", "Ab", "A", "Bb", "B"]
  }

  /**
   * The chord-quality catalog: each quality name with the semitone
   * intervals of its tones above the root. The source writes it as a
   * dictionary literal; here it is the list of its entries, in the order
   * written, and Lookup plays the part of the dictionary subscript.
   */
  function ChordIntervals(): seq<(string, seq<int>)> {
    [("M", [0, 4, 7]), ("m", [0, 3, 7]), ("M7", [0, 4, 7, 11]), ("7", [0, 4, 7, 10]),
     ("M9", [0, 2, 4, 7]), ("m7", [0, 3, 7, 10]), ("m9", [0, 2, 3, 7]), ("6", [0, 4, 7, 9]),
     ("m6", [0, 3, 7, 9]), ("m7#5", [0, 3, 8, 10]), ("mM7", [0, 3, 7, 11]), ("aug", [0, 4, 8]),
     ("aug9", [0, 2, 4, 8]), ("dim", [0, 3, 6]), ("dim7", [0, 3, 6, 9]), ("sus4", [0, 5, 7]),
     ("7sus4", [0, 5, 7, 10]), ("7#5", [0, 4, 8, 10]), ("m7b5", [0, 3, 6, 10]), ("5", [0, 7]),
     ("1", [0])]
  }

  /** MIDI note numbers of the bass register (C3 .. B3), aligned with Roots(). */
  function MidiBass(): seq<int> {
    [48, 49, 50, 51, 52, 53, 54, 55, 56, 57, 58, 59]
  }

  /** MIDI note numbers of the key register (C4 .. B4), aligned with Roots(). */
  function MidiKeys(): seq<int> {
    [60, 61, 62, 63, 64, 65, 66, 67, 68, 69, 70, 71]
  }

  /** A quality's interval list: it starts with the root (0) and stays inside one octave. */
  predicate WellFormedIntervals(ks: seq<int>) {
    |ks| > 0 && ks[0] == 0 && forall i :: 0 <= i < |ks| ==> 0 <= ks[i] < 12
  }

  /** No two positions of s hold the same element. */
  predicate Distinct<T(==)>(s: seq<T>) {
    forall i, j :: 0 <= i < j < |s| ==> s[i] != s[j]
  }

  /**
   * Swift's `Array.index(of:)`: the first position of s holding x, or None
   * when no position holds it.
   */
  function IndexOf<T(==)>(s: seq<T>, x: T): (r: Option<nat>)
    ensures r.Some? ==> r.value < |s| && s[r.value] == x
    ensures r.Some? ==> forall j :: 0 <= j < r.value ==> s[j] != x
    ensures r.None? ==> forall j :: 0 <= j < |s| ==> s[j] != x
  {
    if s == [] then None
    else if s[0] == x then Some(0)
    else
      match IndexOf(s[1..], x)
      case None => None
      case Some(i) => Some(i + 1)
  }

  /**
   * The dictionary subscript `chord_intervals[name]`: the intervals of the
   * first entry with that name, or None when no entry has it.
   */
  function Lookup(table: seq<(string, seq<int>)>, name: string): (r: Option<seq<int>>)
    ensures r.None? ==> forall j :: 0 <= j < |table| ==> table[j].0 != name
  {
    if table == [] then None
    else if table[0].0 == name then Some(table[0].1)
    else Lookup(table[1..], name)
  }

  /** A name the source can look up in the chromatic order without trapping. */
  predicate IsRootName(name: string) {
    IndexOf(Roots(), name).Some?
  }

  /** A quality name the source can look up in the catalog without trapping. */
  predicate IsChordStyle(name: string) {
    Lookup(ChordIntervals(), name).Some?
  }

  /** The twelve root names are all different. */
  function GetRootNames(): (r: seq<string>)
    ensures |r| == 12 && Distinct(r)
    ensures r[0] == "C" && r[11] == "B"
  {
    Roots()
  }

  /** The bass register is the chromatic octave starting at MIDI note 48. */
  function GetMidiBass(): (r: seq<int>)
    ensures |r| == 12
    ensures forall i :: 0 <= i < 12 ==> r[i] == 48 + i
  {
    MidiBass()
  }

  /** The key register sits exactly one octave above the bass register. */
  function GetMidiKeys(): (r: seq<int>)
    ensures |r| == 12
    ensures forall i :: 0 <= i < 12 ==> r[i] == GetMidiBass()[i] + 12
  {
    MidiKeys()
  }

  /** A table lookup yields one of the table's interval lists. */
  lemma {:induction false} LookupFound(table: seq<(string, seq<int>)>, name: string)
    requires Lookup(table, name).Some?
    ensures exists j :: 0 <= j < |table| && table[j] == (name, Lookup(table, name).value)
  {
    if table[0].0 != name {
      LookupFound(table[1..], name);
      var j :| 0 <= j < |table[1..]| && table[1..][j] == (name, Lookup(table, name).value);
      assert table[j + 1] == table[1..][j];
    }
  }

  /** Every entry of the catalog is well formed. */
  lemma CatalogWellFormed()
    ensures forall j :: 0 <= j < |ChordIntervals()| ==> WellFormedIntervals(ChordIntervals()[j].1)
  {
  }

  /** No quality name appears twice in the catalog, as a dictionary literal requires. */
  lemma CatalogNamesDistinct()
    ensures forall i, j :: 0 <= i < j < |ChordIntervals()| ==> ChordIntervals()[i].0 != ChordIntervals()[j].0
  {
  }

  /**
   * The interval list of a catalog quality. A name outside the catalog is a
   * force-unwrap of a missing dictionary entry in the source, so it is a
   * precondition here.
   */
  function GetChordIntervals(chordStyle: string): (r: seq<int>)
    requires IsChordStyle(chordStyle)
    ensures WellFormedIntervals(r)
  {
    LookupFound(ChordIntervals(), chordStyle);
    CatalogWellFormed();
    Lookup(ChordIntervals(), chordStyle).value
  }

  /**
   * The position of a root name in the chromatic order (`index(of:)`
   * force-unwrapped); it is the only position holding that name.
   */
  function RootIndex(name: string): (pos: nat)
    requires IsRootName(name)
    ensures pos < 12 && Roots()[pos] == name
    ensures forall j :: 0 <= j < 12 && Roots()[j] == name ==> j == pos
  {
    IndexOf(GetRootNames(), name).value
  }
}

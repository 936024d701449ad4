/** Per-mode key estimates and their ranking: the record the estimator
    builds for each mode, the stable descending sort by correlation that
    `list.sort(key=..., reverse=True)` performs, and the lookup of an
    estimate by mode. */
module Estimates {
  import opened Vectors
  import opened Correlation

  datatype Option<T> = None | Some(value: T)

  /** The seven diatonic modes of the weight table. */
  datatype Mode = Ionian | Dorian | Phrygian | Lydian | Mixolydian | Aeolian | Locrian

  /** The modes in the order the weight table declares them, which is the
      order the estimator visits them in. */
  const Modes: seq<Mode> := [Ionian, Dorian, Phrygian, Lydian, Mixolydian, Aeolian, Locrian]

  /** The table key of a mode. */
  function ModeName(m: Mode): string
  {
    match m
    case Ionian => "ionian"
    case Dorian => "dorian"
    case Phrygian => "phrygian"
    case Lydian => "lydian"
    case Mixolydian => "mixolydian"
    case Aeolian => "aeolian"
    case Locrian => "locrian"
  }

  /** Position of a mode in declaration order. */
  function Rank(m: Mode): (r: nat)
    ensures r < |Modes| && Modes[r] == m
  {
    match m
    case Ionian => 0
    case Dorian => 1
    case Phrygian => 2
    case Lydian => 3
    case Mixolydian => 4
    case Aeolian => 5
    case Locrian => 6
  }

  /** Each mode appears once in declaration order: position `j` holds the
      mode of rank `j`. */
  lemma ModesIndex()
    ensures |Modes| == 7
    ensures forall j :: 0 <= j < |Modes| ==> Rank(Modes[j]) == j
    ensures forall m :: m in Modes
  {
    forall m ensures m in Modes {
      assert Modes[Rank(m)] == m;
    }
  }

  /** A per-mode table part way through a pass over the modes in
      declaration order: the first `i` modes hold their value from `done`,
      the others their value from `todo`. */
  function Staged<V>(i: nat, done: map<Mode, V>, todo: map<Mode, V>): (t: map<Mode, V>)
    requires forall m :: m in done && m in todo
    ensures forall m :: m in t
    ensures forall m :: t[m] == if Rank(m) < i then done[m] else todo[m]
  {
    ModesIndex();
    map m | m in Modes :: if Rank(m) < i then done[m] else todo[m]
  }

  /** The entries of `done` for the first `i` modes only. */
  function Filled<V>(i: nat, done: map<Mode, V>): (t: map<Mode, V>)
    requires forall m :: m in done
    ensures forall m :: m in t <==> Rank(m) < i
    ensures forall m :: m in t ==> t[m] == done[m]
  {
    ModesIndex();
    map m | m in Modes && Rank(m) < i :: done[m]
  }

  /** Before the pass every mode holds its value from `todo` and no mode
      is filled. */
  lemma StagedStart<V>(done: map<Mode, V>, todo: map<Mode, V>)
    requires forall m :: m in done && m in todo
    ensures Staged(0, done, todo) == todo
    ensures Filled(0, done) == map[]
  {
    assert forall m :: m in todo;
  }

  /** One more step of the pass updates the entry of mode number `i`. */
  lemma StagedStep<V>(i: nat, done: map<Mode, V>, todo: map<Mode, V>)
    requires forall m :: m in done && m in todo
    requires i < |Modes|
    ensures Staged(i, done, todo)[Modes[i]] == todo[Modes[i]]
    ensures Staged(i + 1, done, todo) == Staged(i, done, todo)[Modes[i] := done[Modes[i]]]
  {
    ModesIndex();
    var mode := Modes[i];
    var u := Staged(i, done, todo)[mode := done[mode]];
    forall m ensures Staged(i + 1, done, todo)[m] == u[m] {
      if m != mode {
        assert Rank(m) != i;
      }
    }
  }

  /** One more step of the pass adds the entry of mode number `i`. */
  lemma FilledStep<V>(i: nat, done: map<Mode, V>)
    requires forall m :: m in done
    requires i < |Modes|
    ensures Filled(i + 1, done) == Filled(i, done)[Modes[i] := done[Modes[i]]]
  {
    ModesIndex();
    var mode := Modes[i];
    var f := Filled(i, done)[mode := done[mode]];
    forall m ensures m in Filled(i + 1, done) <==> m in f {
      if m != mode {
        assert Rank(m) != i;
      }
    }
  }

  /** The simplified mode name shown to users: ionian is "major", aeolian
      is "minor", every other mode keeps its own name. */
  function DisplayMode(m: Mode): (d: string)
    ensures d == "major" <==> m == Ionian
    ensures d == "minor" <==> m == Aeolian
    ensures m != Ionian && m != Aeolian ==> d == ModeName(m)
  {
    if m == Ionian then "major" else if m == Aeolian then "minor" else ModeName(m)
  }

  /** Pitch-class names, sharps only, indexed from C. */
  const NoteNames: seq<string> := ["C", "C#", "D", "D#", "E", "F", "F#", "G", "G#", "A", "A#", "B"]

  /** The per-mode result: the mode, its display name, the best tonic's
      pitch class and name, the correlation there, the full key name and
      the whole coefficient vector. */
  datatype Estimate = Estimate(
    mode: Mode,
    modeSimple: string,
    keyIndex: nat,
    key: string,
    correlation: real,
    fullName: string,
    coefficients: seq<real>)

  /** The estimate record for one mode, built from its 12 coefficients:
      the best tonic is the first index of the largest coefficient. */
  function MakeEstimate(mode: Mode, coefficients: seq<real>): (e: Estimate)
    requires |coefficients| == 12
    ensures e.mode == mode && e.coefficients == coefficients
    ensures e.keyIndex < 12 && e.correlation == coefficients[e.keyIndex]
    ensures forall i :: 0 <= i < 12 ==> coefficients[i] <= e.correlation
    ensures forall i :: 0 <= i < e.keyIndex ==> coefficients[i] < e.correlation
    ensures e.key == NoteNames[e.keyIndex]
    ensures e.modeSimple == DisplayMode(mode)
    ensures e.fullName == e.key + " " + e.modeSimple
  {
    var best := ArgMax(coefficients);
    var modeSimple := DisplayMode(mode);
    Estimate(mode, modeSimple, best, NoteNames[best], coefficients[best],
             NoteNames[best] + " " + modeSimple, coefficients)
  }

  /** The estimate of a rotated coefficient vector has the same
      correlation. */
  lemma EstimateShift(mode: Mode, c: seq<real>, c': seq<real>, k: int)
    requires |c| == 12
    requires c' == Rotate(c, k)
    ensures MakeEstimate(mode, c').correlation == MakeEstimate(mode, c).correlation
  {
    MaxRotate(c, k);
  }

  /** When entry `r` of `c` beats every other entry, the estimate picks
      tonic `r`, and the estimate of `c` rotated by `k` picks tonic
      `(r + k) mod 12`. */
  lemma EstimateShiftAt(mode: Mode, c: seq<real>, c': seq<real>, k: int, r: int)
    requires |c| == 12
    requires c' == Rotate(c, k)
    requires 0 <= r < 12
    requires forall j :: 0 <= j < 12 && j != r ==> c[j] < c[r]
    ensures MakeEstimate(mode, c).keyIndex == r
    ensures MakeEstimate(mode, c').keyIndex == (r + k) % 12
  {
    var b := (r + k) % 12;
    RotateAt(c, k, r);
    forall i | 0 <= i < 12 && i != b ensures c'[i] < c'[b] {
      RotateBack(k, i);
      RotateAt(c, k, (i - k) % 12);
    }
  }

  /** An estimate whose names are formed from its key index and mode as
      MakeEstimate forms them. */
  predicate WellNamed(e: Estimate)
  {
    e.keyIndex < 12 && e.key == NoteNames[e.keyIndex] &&
    e.modeSimple == DisplayMode(e.mode) && e.fullName == e.key + " " + e.modeSimple
  }

  /** Distinct modes have distinct display names. */
  lemma DisplayModeInjective(a: Mode, b: Mode)
    requires DisplayMode(a) == DisplayMode(b)
    ensures a == b
  {
    var da, db := DisplayMode(a), DisplayMode(b);
    assert |da| == |db|;
    assert da[0] == db[0];
    if |da| > 1 {
      assert da[1] == db[1];
    }
  }

  /** No note name or display name contains a space, and note names are
      one or two characters long and pairwise distinct. */
  lemma NameShapes()
    ensures forall i :: 0 <= i < 12 ==> 1 <= |NoteNames[i]| <= 2 && ' ' !in NoteNames[i]
    ensures forall i :: 0 <= i < 12 ==> |NoteNames[i]| == 2 ==> NoteNames[i][1] == '#'
    ensures forall i, j :: 0 <= i < 12 && 0 <= j < 12 && NoteNames[i] == NoteNames[j] ==> i == j
    ensures forall m :: ' ' !in DisplayMode(m)
  {
    forall i, j | 0 <= i < 12 && 0 <= j < 12 && NoteNames[i] == NoteNames[j] ensures i == j {
      assert NoteNames[i][0] == NoteNames[j][0];
      assert |NoteNames[i]| == |NoteNames[j]|;
    }
  }

  /** The full name "<key> <mode>" determines both the tonic and the mode:
      two estimates built by MakeEstimate with equal full names agree on
      key index and mode. */
  lemma FullNameInjective(e1: Estimate, e2: Estimate)
    requires e1.keyIndex < 12 && e2.keyIndex < 12
    requires e1.key == NoteNames[e1.keyIndex] && e2.key == NoteNames[e2.keyIndex]
    requires e1.modeSimple == DisplayMode(e1.mode) && e2.modeSimple == DisplayMode(e2.mode)
    requires e1.fullName == e1.key + " " + e1.modeSimple
    requires e2.fullName == e2.key + " " + e2.modeSimple
    requires e1.fullName == e2.fullName
    ensures e1.keyIndex == e2.keyIndex && e1.mode == e2.mode
  {
    NameShapes();
    var k1, k2 := e1.key, e2.key;
    var f := e1.fullName;
    FirstSpace(k1, e1.modeSimple, f);
    FirstSpace(k2, e2.modeSimple, f);
    assert |k1| == |k2|;
    assert k1 == f[..|k1|] == k2;
    assert e1.modeSimple == f[|k1| + 1..] == e2.modeSimple;
    DisplayModeInjective(e1.mode, e2.mode);
  }

  /** In `k + " " + d` with no space in `k`, the first space sits right
      after `k`. */
  lemma FirstSpace(k: string, d: string, f: string)
    requires ' ' !in k
    requires f == k + " " + d
    ensures f[|k|] == ' '
    ensures forall i :: 0 <= i < |k| ==> f[i] != ' '
  {
    forall i | 0 <= i < |k| ensures f[i] != ' ' {
      assert f[i] == k[i];
    }
  }

  /** `a` goes before `b` in the ranking: a higher correlation, or an
      equal one and an earlier mode in declaration order. */
  predicate Before(a: Estimate, b: Estimate): (r: bool)
    ensures r ==> a.correlation >= b.correlation && a != b
  {
    a.correlation > b.correlation || (a.correlation == b.correlation && Rank(a.mode) < Rank(b.mode))
  }

  /** Every entry goes before every later entry. */
  predicate Ranked(s: seq<Estimate>): (r: bool)
    ensures r ==> forall i, j :: 0 <= i < j < |s| ==> s[i].correlation >= s[j].correlation && s[i] != s[j]
  {
    forall i, j :: 0 <= i < j < |s| ==> Before(s[i], s[j])
  }

  /** Correlations never increase along the list. */
  predicate NonIncreasing(s: seq<Estimate>)
  {
    forall i, j :: 0 <= i < j < |s| ==> s[i].correlation >= s[j].correlation
  }

  /** The modes of the entries strictly follow declaration order. */
  predicate InDeclarationOrder(s: seq<Estimate>)
  {
    forall i, j :: 0 <= i < j < |s| ==> Rank(s[i].mode) < Rank(s[j].mode)
  }

  /** Puts `e` into a list, ahead of the first entry whose correlation is
      not greater than its own. */
  function Insert(e: Estimate, s: seq<Estimate>): (r: seq<Estimate>)
    ensures |r| == |s| + 1
    ensures multiset(r) == multiset(s) + multiset{e}
  {
    if |s| == 0 || s[0].correlation <= e.correlation then [e] + s
    else
      assert s == [s[0]] + s[1..];
      [s[0]] + Insert(e, s[1..])
  }

  /** The stable sort by non-increasing correlation: each element goes in
      ahead of the sorted rest only past entries of strictly greater
      correlation, so among equal correlations the input order is kept. */
  function SortByCorrelation(s: seq<Estimate>): (r: seq<Estimate>)
    ensures |r| == |s|
    ensures multiset(r) == multiset(s)
  {
    if |s| == 0 then []
    else
      assert s == [s[0]] + s[1..];
      Insert(s[0], SortByCorrelation(s[1..]))
  }

  /** Inserting an estimate that precedes the whole of a ranked list in
      declaration order keeps it ranked. */
  lemma {:induction false} InsertRanked(e: Estimate, s: seq<Estimate>)
    requires Ranked(s)
    requires forall x :: x in s ==> Rank(e.mode) < Rank(x.mode)
    ensures Ranked(Insert(e, s))
  {
    var r := Insert(e, s);
    if |s| == 0 || s[0].correlation <= e.correlation {
      forall j | 0 <= j < |s| ensures Before(e, s[j]) {
        assert s[j] in s;
        if j > 0 {
          assert Before(s[0], s[j]);
        }
      }
    } else {
      var rest := Insert(e, s[1..]);
      assert forall x :: x in s[1..] ==> x in s;
      InsertRanked(e, s[1..]);
      forall j | 0 <= j < |rest| ensures Before(s[0], rest[j]) {
        assert rest[j] in multiset(rest);
        if rest[j] != e {
          assert rest[j] in multiset(s[1..]);
          var k :| 0 <= k < |s[1..]| && s[1..][k] == rest[j];
          assert Before(s[0], s[k + 1]);
        }
      }
      assert r == [s[0]] + rest;
    }
  }

  /** Sorting a list whose modes follow declaration order yields a ranked
      list: non-increasing correlation, ties kept in declaration order. */
  lemma {:induction false} SortRanked(s: seq<Estimate>)
    requires InDeclarationOrder(s)
    ensures Ranked(SortByCorrelation(s))
    ensures NonIncreasing(SortByCorrelation(s))
  {
    if |s| > 0 {
      var t := SortByCorrelation(s[1..]);
      assert InDeclarationOrder(s[1..]);
      SortRanked(s[1..]);
      forall x | x in t ensures Rank(s[0].mode) < Rank(x.mode) {
        assert x in multiset(t);
        assert x in s[1..];
        var k :| 0 <= k < |s[1..]| && s[1..][k] == x;
        assert s[k + 1] == x;
      }
      InsertRanked(s[0], t);
    }
  }

  /** Two lists that agree entry by entry on mode and correlation are
      rearranged identically by the sort: the sort looks at nothing else. */
  lemma {:induction false} SortSameKeys(s: seq<Estimate>, t: seq<Estimate>)
    requires |s| == |t|
    requires forall i :: 0 <= i < |s| ==> s[i].mode == t[i].mode && s[i].correlation == t[i].correlation
    ensures forall i :: 0 <= i < |s| ==>
      SortByCorrelation(s)[i].mode == SortByCorrelation(t)[i].mode &&
      SortByCorrelation(s)[i].correlation == SortByCorrelation(t)[i].correlation
  {
    if |s| > 0 {
      SortSameKeys(s[1..], t[1..]);
      InsertSameKeys(s[0], SortByCorrelation(s[1..]), t[0], SortByCorrelation(t[1..]));
    }
  }

  /** Insert counterpart of SortSameKeys. */
  lemma {:induction false} InsertSameKeys(e: Estimate, s: seq<Estimate>, f: Estimate, t: seq<Estimate>)
    requires e.mode == f.mode && e.correlation == f.correlation
    requires |s| == |t|
    requires forall i :: 0 <= i < |s| ==> s[i].mode == t[i].mode && s[i].correlation == t[i].correlation
    ensures forall i :: 0 <= i < |s| + 1 ==>
      Insert(e, s)[i].mode == Insert(f, t)[i].mode &&
      Insert(e, s)[i].correlation == Insert(f, t)[i].correlation
  {
    if |s| > 0 && s[0].correlation > e.correlation {
      InsertSameKeys(e, s[1..], f, t[1..]);
    }
  }

  /** In a rearrangement of a list holding one estimate per mode in
      declaration order, looking a mode up finds that mode's entry. */
  lemma FindInPermutation(s: seq<Estimate>, t: seq<Estimate>, m: Mode)
    requires |s| == |Modes|
    requires forall i :: 0 <= i < |s| ==> s[i].mode == Modes[i]
    requires multiset(t) == multiset(s)
    ensures FindByMode(t, m) == Some(s[Rank(m)])
  {
    ModesIndex();
    var e := s[Rank(m)];
    assert e in multiset(s);
    assert e in t;
    var found := FindByMode(t, m);
    assert found.value in multiset(t);
    var k :| 0 <= k < |s| && s[k] == found.value;
    assert Rank(s[k].mode) == k;
  }

  /** A ranked rearrangement of a list holding one well-named estimate
      per mode in declaration order has pairwise distinct modes and
      pairwise distinct full names. */
  lemma DistinctInPermutation(s: seq<Estimate>, t: seq<Estimate>)
    requires |s| == |Modes|
    requires forall i :: 0 <= i < |s| ==> s[i].mode == Modes[i] && WellNamed(s[i])
    requires multiset(t) == multiset(s)
    requires Ranked(t)
    ensures forall i, j :: 0 <= i < j < |t| ==> t[i].mode != t[j].mode && t[i].fullName != t[j].fullName
  {
    ModesIndex();
    forall i, j | 0 <= i < j < |t| ensures t[i].mode != t[j].mode && t[i].fullName != t[j].fullName {
      assert t[i] in multiset(s) && t[j] in multiset(s);
      var a :| 0 <= a < |s| && s[a] == t[i];
      var b :| 0 <= b < |s| && s[b] == t[j];
      assert Before(t[i], t[j]);
      if t[i].fullName == t[j].fullName {
        FullNameInjective(t[i], t[j]);
      }
    }
  }

  /** A permutation of estimates whose correlations lie in [-1, 1] has
      its correlations in [-1, 1]. */
  lemma CorrelationsWithin(s: seq<Estimate>, t: seq<Estimate>, i: int)
    requires multiset(t) == multiset(s)
    requires forall k :: 0 <= k < |s| ==> -1.0 <= s[k].correlation <= 1.0
    requires 0 <= i < |t|
    ensures -1.0 <= t[i].correlation <= 1.0
  {
    assert t[i] in multiset(s);
    var k :| 0 <= k < |s| && s[k] == t[i];
  }

  /** In a list of non-increasing correlation no entry beats the first. */
  lemma FirstIsBest(t: seq<Estimate>, e: Estimate)
    requires NonIncreasing(t)
    requires e in t
    ensures e.correlation <= t[0].correlation
  {
    var i :| 0 <= i < |t| && t[i] == e;
    if i > 0 {
      assert t[0].correlation >= t[i].correlation;
    }
  }

  /** The first estimate for mode `m`, as the generator expression
      `next(e for e in all_estimates if e['mode'] == m)` finds it, or None
      where Python would raise StopIteration. */
  function FindByMode(s: seq<Estimate>, m: Mode): (r: Option<Estimate>)
    ensures r.Some? <==> exists i :: 0 <= i < |s| && s[i].mode == m
    ensures r.Some? ==> exists i :: 0 <= i < |s| && s[i] == r.value && r.value.mode == m &&
                          forall j :: 0 <= j < i ==> s[j].mode != m
  {
    if |s| == 0 then None
    else if s[0].mode == m then Some(s[0])
    else
      var r := FindByMode(s[1..], m);
      if r.Some? then
        var i :| 0 <= i < |s[1..]| && s[1..][i] == r.value && r.value.mode == m &&
                 forall j :: 0 <= j < i ==> s[1..][j].mode != m;
        assert s[i + 1] == r.value;
        r
      else r
  }
}

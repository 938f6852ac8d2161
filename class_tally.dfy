// The per-class tally both renderers build before drawing their legend
// (lib/imageUtils.ts:34-37, components/BoundingBoxOverlay.tsx:15-21):
// `counts[c] = (counts[c] || 0) + 1` for every detection, then read back
// with `Object.entries`. A plain JavaScript object enumerates its string
// keys in insertion order (OrdinaryOwnPropertyKeys, section 10.1.11.1 of
// ECMA-262), so the tally is an association list in first-seen order.
module ClassTally {
  import opened Detections
  import opened Format

  /** One `[class, count]` pair of the tally. */
  datatype Entry = Entry(className: string, count: nat)

  function Keys(t: seq<Entry>): seq<string>
  {
    seq(|t|, i requires 0 <= i < |t| => t[i].className)
  }

  predicate Distinct(s: seq<string>)
  {
    forall i, j :: 0 <= i < j < |s| ==> s[i] != s[j]
  }

  /** The count recorded for `c`, or 0 when `c` is not a key. */
  function CountOf(t: seq<Entry>, c: string): nat
  {
    if t == [] then 0 else if t[0].className == c then t[0].count else CountOf(t[1..], c)
  }

  function Sum(t: seq<Entry>): nat
  {
    if t == [] then 0 else t[0].count + Sum(t[1..])
  }

  /** How often class `c` occurs among the detections. */
  function Occurrences(ds: seq<Detection>, c: string): nat
  {
    multiset(Labels(ds))[c]
  }

  /** The distinct classes of the detections. */
  function ClassSet(ds: seq<Detection>): set<string>
  {
    set i | 0 <= i < |ds| :: ds[i].className
  }

  /** The position where class `c` first occurs, or `|ds|` when it does not. */
  function FirstIndex(ds: seq<Detection>, c: string): (k: nat)
    ensures k <= |ds|
    ensures k < |ds| ==> ds[k].className == c
    ensures forall i :: 0 <= i < k ==> ds[i].className != c
  {
    if ds == [] then 0 else if ds[0].className == c then 0 else 1 + FirstIndex(ds[1..], c)
  }

  /** One step of the tally: bump the count of `c` in place, or append `c` with count 1. */
  function Bump(t: seq<Entry>, c: string): (r: seq<Entry>)
    ensures |t| <= |r| <= |t| + 1
  {
    if t == [] then [Entry(c, 1)]
    else if t[0].className == c then [Entry(c, t[0].count + 1)] + t[1..]
    else [t[0]] + Bump(t[1..], c)
  }

  /** The tally of `ds`: one `Bump` per detection, in input order. */
  function Tally(ds: seq<Detection>): (r: seq<Entry>)
    ensures |r| <= |ds|
    ensures ds != [] ==> r != []
  {
    if ds == [] then [] else Bump(Tally(ds[..|ds| - 1]), ds[|ds| - 1].className)
  }

  // ---- JavaScript object keys for which the tally above is what the code computes ----

  /** Properties every plain object inherits from `Object.prototype`. */
  const ObjectPrototypeKeys: set<string> := {
    "constructor", "__proto__", "__defineGetter__", "__defineSetter__",
    "__lookupGetter__", "__lookupSetter__", "hasOwnProperty", "isPrototypeOf",
    "propertyIsEnumerable", "toLocaleString", "toString", "valueOf"
  }

  /** An array index: the canonical numeral of an integer below 2^32 - 1. */
  predicate IsArrayIndex(s: string)
  {
    |s| > 0 && (forall i :: 0 <= i < |s| ==> IsDigit(s[i]))
    && Decimal(ParseDecimal(s)) == s && ParseDecimal(s) < 0xFFFF_FFFF
  }

  /**
   * A label that behaves as a fresh key: an inherited name would make `|| 0`
   * read a function, and array indices are enumerated before other keys.
   */
  predicate PlainLabel(s: string)
  {
    s !in ObjectPrototypeKeys && !IsArrayIndex(s)
  }

  predicate PlainLabels(ds: seq<Detection>)
  {
    forall i :: 0 <= i < |ds| ==> PlainLabel(ds[i].className)
  }

  /** The `forEach` that fills `classCount`: one bump per detection, in input order. */
  method CountClasses(ds: seq<Detection>) returns (classCount: seq<Entry>)
    requires PlainLabels(ds)
    ensures classCount == Tally(ds)
  {
    classCount := [];
    for i := 0 to |ds|
      invariant classCount == Tally(ds[..i])
    {
      assert ds[..i + 1][..i] == ds[..i];
      classCount := Bump(classCount, ds[i].className);
    }
    assert ds[..|ds|] == ds;
  }

  // ---- One step ----

  /** A bump keeps the key order, appending `c` only when it is new. */
  lemma {:induction false} BumpKeys(t: seq<Entry>, c: string)
    ensures Keys(Bump(t, c)) == if c in Keys(t) then Keys(t) else Keys(t) + [c]
  {
    if t == [] {
      assert Keys(Bump(t, c)) == [c];
    } else if t[0].className == c {
      assert Keys(t)[0] == c;
      assert Keys(Bump(t, c)) == Keys(t);
    } else {
      BumpKeys(t[1..], c);
      assert Keys(t) == [t[0].className] + Keys(t[1..]);
      assert Keys(Bump(t, c)) == [t[0].className] + Keys(Bump(t[1..], c));
      assert c in Keys(t) <==> c in Keys(t[1..]);
    }
  }

  /** A bump adds one to the count of `c` and leaves every other count alone. */
  lemma {:induction false} BumpCountOf(t: seq<Entry>, c: string, x: string)
    ensures CountOf(Bump(t, c), x) == CountOf(t, x) + (if x == c then 1 else 0)
  {
    if t != [] && t[0].className != c {
      BumpCountOf(t[1..], c, x);
    }
  }

  /** A bump adds one to the total. */
  lemma {:induction false} BumpSum(t: seq<Entry>, c: string)
    ensures Sum(Bump(t, c)) == Sum(t) + 1
  {
    if t != [] && t[0].className != c {
      BumpSum(t[1..], c);
    }
  }

  /** With distinct keys, each entry's count is the count recorded for its key. */
  lemma {:induction false} EntryCount(t: seq<Entry>, i: nat)
    requires Distinct(Keys(t)) && i < |t|
    ensures t[i].count == CountOf(t, t[i].className)
  {
    if i > 0 {
      assert Keys(t[1..]) == Keys(t)[1..];
      assert t[0].className != t[i].className by {
        assert Keys(t)[0] != Keys(t)[i];
      }
      EntryCount(t[1..], i - 1);
    }
  }

  // ---- The whole tally ----

  /** The keys are exactly the classes that occur, each once. */
  lemma {:induction false} TallyKeys(ds: seq<Detection>)
    ensures Distinct(Keys(Tally(ds)))
    ensures forall c :: c in Keys(Tally(ds)) <==> c in Labels(ds)
  {
    if ds != [] {
      var p, d := ds[..|ds| - 1], ds[|ds| - 1];
      assert ds == p + [d];
      TallyKeys(p);
      BumpKeys(Tally(p), d.className);
      LabelsSnoc(p, d);
    }
  }

  /** Each class's count is its number of occurrences. */
  lemma {:induction false} TallyCounts(ds: seq<Detection>)
    ensures forall c :: CountOf(Tally(ds), c) == Occurrences(ds, c)
    ensures forall i :: 0 <= i < |Tally(ds)| ==> Tally(ds)[i].count == Occurrences(ds, Tally(ds)[i].className)
  {
    if ds != [] {
      var p, d := ds[..|ds| - 1], ds[|ds| - 1];
      assert ds == p + [d];
      TallyCounts(p);
      LabelsSnoc(p, d);
      forall c ensures CountOf(Tally(ds), c) == Occurrences(ds, c) {
        BumpCountOf(Tally(p), d.className, c);
      }
    }
    TallyKeys(ds);
    forall i | 0 <= i < |Tally(ds)| ensures Tally(ds)[i].count == Occurrences(ds, Tally(ds)[i].className) {
      EntryCount(Tally(ds), i);
    }
  }

  /** The counts add up to the number of detections. */
  lemma {:induction false} TallySum(ds: seq<Detection>)
    ensures Sum(Tally(ds)) == |ds|
  {
    if ds != [] {
      TallySum(ds[..|ds| - 1]);
      BumpSum(Tally(ds[..|ds| - 1]), ds[|ds| - 1].className);
    }
  }

  /** A sequence without repeats has as many elements as its set. */
  lemma {:induction false} DistinctCard(s: seq<string>)
    requires Distinct(s)
    ensures |set x | x in s| == |s|
  {
    if s != [] {
      var p := s[..|s| - 1];
      assert Distinct(p);
      DistinctCard(p);
      assert (set x | x in s) == (set x | x in p) + {s[|s| - 1]};
      assert s[|s| - 1] !in p;
    }
  }

  /** There is one entry per distinct class. */
  lemma TallySize(ds: seq<Detection>)
    ensures |Tally(ds)| == |ClassSet(ds)|
  {
    TallyKeys(ds);
    var t := Tally(ds);
    DistinctCard(Keys(t));
    assert (set x | x in Keys(t)) == ClassSet(ds) by {
      forall x ensures x in Keys(t) <==> x in ClassSet(ds) {
        if x in ClassSet(ds) {
          var i :| 0 <= i < |ds| && ds[i].className == x;
          assert Labels(ds)[i] == x;
        }
      }
    }
  }

  /** A class already seen keeps its first position when a detection is appended. */
  lemma FirstIndexSnoc(p: seq<Detection>, d: Detection, c: string)
    requires c in Labels(p)
    ensures FirstIndex(p, c) < |p|
    ensures FirstIndex(p + [d], c) == FirstIndex(p, c)
  {
    var k :| 0 <= k < |p| && Labels(p)[k] == c;
    var i, i' := FirstIndex(p, c), FirstIndex(p + [d], c);
    assert (p + [d])[k] == p[k];
    assert i <= k && i' <= k;
    assert p[i] == (p + [d])[i] && p[i'] == (p + [d])[i'];
  }

  /** Entries come in the order their classes are first seen. */
  lemma {:induction false} TallyFirstSeen(ds: seq<Detection>)
    ensures forall i, j :: 0 <= i < j < |Tally(ds)| ==>
      FirstIndex(ds, Tally(ds)[i].className) < FirstIndex(ds, Tally(ds)[j].className)
  {
    if ds != [] {
      var p, d := ds[..|ds| - 1], ds[|ds| - 1];
      assert ds == p + [d];
      var t, t' := Tally(p), Tally(ds);
      TallyFirstSeen(p);
      TallyKeys(p);
      BumpKeys(t, d.className);
      forall i, j | 0 <= i < j < |t'|
        ensures FirstIndex(ds, t'[i].className) < FirstIndex(ds, t'[j].className)
      {
        assert t'[i].className == Keys(t')[i] && t'[j].className == Keys(t')[j];
        assert Keys(t')[i] == Keys(t)[i] == t[i].className;
        FirstIndexSnoc(p, d, t[i].className);
        if j < |t| {
          assert Keys(t')[j] == Keys(t)[j] == t[j].className;
          FirstIndexSnoc(p, d, t[j].className);
        } else {
          assert t'[j].className == d.className && d.className !in Labels(p);
          assert FirstIndex(ds, d.className) == |p| by {
            forall k | 0 <= k < |p| ensures ds[k].className != d.className {
              assert Labels(p)[k] == p[k].className;
            }
          }
        }
      }
    }
  }
}

/**
 * The values the restore script handles: what `json.load` produces from the
 * captured metadata files (dicts, lists, strings, numbers, booleans, None),
 * plus the two non-JSON number kinds the synthetic generator puts into a
 * document: BSON `Decimal128` and the `decimal.Decimal` that faker returns
 * for coordinates. Python's `None` and JSON `null` are the same value, `PyNone`.
 */
module Values {

  datatype Value =
    | PyNone
    | PyBool(b: bool)
    | PyInt(i: int)
    | PyFloat(x: real)          // a Python float (no claim is made about its digits)
    | PyDecimal128(d: real)     // bson.decimal128.Decimal128
    | PyDecimal(c: real)        // decimal.Decimal, as returned by faker.longitude()/latitude()
    | PyStr(s: string)
    | PyList(items: seq<Value>)
    | PyDict(fields: map<string, Value>)

  /** Python truthiness: None, False, zero, and empty str/list/dict are false.
      A Decimal128 object defines no truth value of its own and is always true. */
  predicate Truthy(v: Value)
    ensures v == PyNone ==> !Truthy(v)
    ensures v.PyStr? ==> (Truthy(v) <==> |v.s| > 0)
    ensures v.PyList? ==> (Truthy(v) <==> |v.items| > 0)
    ensures v.PyDict? ==> (Truthy(v) <==> |v.fields| > 0)
  {
    match v
    case PyNone => false
    case PyBool(b) => b
    case PyInt(i) => i != 0
    case PyFloat(x) => x != 0.0
    case PyDecimal128(_) => true
    case PyDecimal(c) => c != 0.0
    case PyStr(s) => s != ""
    case PyList(items) => items != []
    case PyDict(fields) => fields != map[]
  }

  /** `t` occurs in `s` as a contiguous piece (Python's `t in s` on two strings). */
  predicate IsSubstring(t: string, s: string)
    decreases |s|
  {
    |t| <= |s| && (t <= s || IsSubstring(t, s[1..]))
  }

  /** `t` sits in `s` starting at position `i`. */
  predicate OccursAt(t: string, s: string, i: nat)
  {
    i + |t| <= |s| && s[i..i + |t|] == t
  }

  /** Dropping the first character shifts every occurrence one place left. */
  lemma OccursShift(t: string, s: string, i: nat)
    requires |s| > 0
    ensures OccursAt(t, s, i + 1) <==> OccursAt(t, s[1..], i)
  {
    if i + 1 + |t| <= |s| {
      assert s[1..][i..i + |t|] == s[i + 1..i + 1 + |t|];
    }
  }

  /** IsSubstring holds exactly when `t` sits in `s` at some position. */
  lemma {:induction false} SubstringIff(t: string, s: string)
    ensures IsSubstring(t, s) <==> exists i: nat :: OccursAt(t, s, i)
    decreases |s|
  {
    if |t| <= |s| {
      if |s| > 0 {
        SubstringIff(t, s[1..]);
      }
      if t <= s {
        assert OccursAt(t, s, 0);
      }
      if exists i: nat :: OccursAt(t, s, i) {
        var i: nat :| OccursAt(t, s, i);
        if i > 0 {
          OccursShift(t, s, i - 1);
        } else {
          assert t <= s;
        }
      }
      if |s| > 0 && IsSubstring(t, s[1..]) {
        var j: nat :| OccursAt(t, s[1..], j);
        OccursShift(t, s, j);
      }
    } else {
      forall i: nat ensures !OccursAt(t, s, i) { }
    }
  }

  /** A string holding a character that `s` lacks does not occur in `s`. */
  lemma AbsentCharacter(t: string, s: string, c: char)
    requires c in t && c !in s
    ensures !IsSubstring(t, s)
  {
    SubstringIff(t, s);
  }

  /** Python's `key in container`. `None` stands for the TypeError Python raises
      when the container is not iterable (None, a bool or a number). A dict is
      searched by key, a list by element equality (a string equals only a
      string), a string by substring. */
  function Contains(container: Value, key: string): (r: Option<bool>)
    ensures r.Some? <==> container.PyDict? || container.PyList? || container.PyStr?
    ensures container.PyStr? ==> (r == Some(true) <==> exists i: nat :: OccursAt(key, container.s, i))
  {
    match container
    case PyDict(fields) => Some(key in fields)
    case PyList(items) => Some(PyStr(key) in items)
    case PyStr(s) =>
      SubstringIff(key, s);
      Some(IsSubstring(key, s))
    case _ => None
  }

  datatype Option<+T> = None | Some(value: T)
}

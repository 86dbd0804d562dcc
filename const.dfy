/** The closed enumerations of backlog/models/const.py.  Each member's value is
    a (code, label) pair; `value_of` scans the members in declaration order. */
module Const {
  import opened Errors

  /** `BaseEnum.value_of`: the first of `members` whose code is `code`, or a
      ValueError when there is none. */
  function ValueOf<E>(members: seq<E>, pair: E -> (int, string), code: int): (r: Result<E>)
    ensures r.Ok? <==> exists i :: 0 <= i < |members| && pair(members[i]).0 == code
    ensures r.Ok? ==> exists i :: 0 <= i < |members| && members[i] == r.value && pair(r.value).0 == code
                        && forall j :: 0 <= j < i ==> pair(members[j]).0 != code
    ensures r.Err? ==> r.error == UnknownCode(code)
  {
    if members == [] then Err(UnknownCode(code))
    else if pair(members[0]).0 == code then Ok(members[0])
    else
      var r := ValueOf(members[1..], pair, code);
      if r.Ok? then
        ghost var i :| 0 <= i < |members[1..]| && members[1..][i] == r.value && pair(r.value).0 == code
                       && forall j :: 0 <= j < i ==> pair(members[1..][j]).0 != code;
        assert members[i + 1] == r.value;
        r
      else
        assert forall i :: 1 <= i < |members| ==> members[i] == members[1..][i - 1];
        r
  }

  /** `value_of` as the source runs it: a scan of the members in declaration
      order that returns the first match and raises once the scan is over. */
  method ValueOfScan<E>(members: seq<E>, pair: E -> (int, string), code: int) returns (r: Result<E>)
    ensures r == ValueOf(members, pair, code)
  {
    var i := 0;
    while i < |members|
      invariant 0 <= i <= |members|
      invariant ValueOf(members, pair, code) == ValueOf(members[i..], pair, code)
    {
      if pair(members[i]).0 == code {
        return Ok(members[i]);
      }
      assert members[i..][1..] == members[i + 1..];
      i := i + 1;
    }
    return Err(UnknownCode(code));
  }

  /** No two members share a code. */
  ghost predicate UniqueCodes<E>(members: seq<E>, pair: E -> (int, string)) {
    forall i, j :: 0 <= i < j < |members| ==> pair(members[i]).0 != pair(members[j]).0
  }

  /** With unique codes, looking up a member's own code gives back that member. */
  lemma ValueOfOwnCode<E>(members: seq<E>, pair: E -> (int, string), k: nat)
    requires UniqueCodes(members, pair) && k < |members|
    ensures ValueOf(members, pair, pair(members[k]).0) == Ok(members[k])
  {
    var r := ValueOf(members, pair, pair(members[k]).0);
    var i :| 0 <= i < |members| && members[i] == r.value && pair(r.value).0 == pair(members[k]).0
             && forall j :: 0 <= j < i ==> pair(members[j]).0 != pair(members[k]).0;
    assert i == k;
  }

  // ---------------------------------------------------------------------------
  // Priority

  datatype Priority = High | Normal | Low

  const PRIORITY_MEMBERS: seq<Priority> := [High, Normal, Low]

  /** The member's value tuple. */
  function PriorityPair(p: Priority): (int, string) {
    match p
    case High => (2, "High")
    case Normal => (3, "Normal")
    case Low => (4, "Low")
  }

  /** `to_value()`: the first element of the pair. */
  function PriorityToValue(p: Priority): (c: int)
    ensures 2 <= c <= 4 && PRIORITY_MEMBERS[c - 2] == p
  {
    PriorityPair(p).0
  }

  /** `str(p)`: the second element of the pair. */
  function PriorityLabel(p: Priority): (s: string)
    ensures s == ["High", "Normal", "Low"][PriorityToValue(p) - 2]
  {
    PriorityPair(p).1
  }

  /** `Priority.value_of(code)`: the member whose code is `code`, or a ValueError. */
  function PriorityValueOf(code: int): (r: Result<Priority>)
    ensures r.Ok? ==> PriorityToValue(r.value) == code
    ensures r.Err? ==> r.error == UnknownCode(code)
  {
    ValueOf(PRIORITY_MEMBERS, PriorityPair, code)
  }

  /** The codes that `value_of` accepts are exactly 2, 3 and 4, for High, Normal
      and Low; any other code is a ValueError. */
  lemma PriorityValueOfTable(code: int)
    ensures PriorityValueOf(code).Ok? <==> code in {2, 3, 4}
    ensures code == 2 ==> PriorityValueOf(code) == Ok(High)
    ensures code == 3 ==> PriorityValueOf(code) == Ok(Normal)
    ensures code == 4 ==> PriorityValueOf(code) == Ok(Low)
    ensures code !in {2, 3, 4} ==> PriorityValueOf(code) == Err(UnknownCode(code))
  {
    var ms := PRIORITY_MEMBERS;
    if PriorityValueOf(code).Ok? {
      var i :| 0 <= i < |ms| && PriorityPair(ms[i]).0 == code;
    }
    if code in {2, 3, 4} {
      var k := code - 2;
      assert PriorityPair(ms[k]).0 == code;
      assert UniqueCodes(ms, PriorityPair);
      ValueOfOwnCode(ms, PriorityPair, k);
    }
  }

  /** `to_value()` and `str()` of each member are the two halves of its
      declared pair, and no two members share a code or a label. */
  lemma PriorityMembers()
    ensures PriorityToValue(High) == 2 && PriorityLabel(High) == "High"
    ensures PriorityToValue(Normal) == 3 && PriorityLabel(Normal) == "Normal"
    ensures PriorityToValue(Low) == 4 && PriorityLabel(Low) == "Low"
    ensures forall p, q :: p != q ==> PriorityToValue(p) != PriorityToValue(q) && PriorityLabel(p) != PriorityLabel(q)
  {
  }

  /** Every member round-trips through its code. */
  lemma PriorityRoundTrip(p: Priority)
    ensures PriorityValueOf(PriorityToValue(p)) == Ok(p)
  {
    PriorityValueOfTable(PriorityToValue(p));
  }

  // ---------------------------------------------------------------------------
  // Resolution

  datatype Resolution = Fixed | WontFix | Invalid | Duplication | CannotReproduce

  const RESOLUTION_MEMBERS: seq<Resolution> := [Fixed, WontFix, Invalid, Duplication, CannotReproduce]

  function ResolutionPair(r: Resolution): (int, string) {
    match r
    case Fixed => (0, "Fixed")
    case WontFix => (1, "Won't Fix")
    case Invalid => (2, "Invalid")
    case Duplication => (3, "Duplication")
    case CannotReproduce => (4, "Cannot Reproduce")
  }

  /** `to_value()`: the first element of the pair. */
  function ResolutionToValue(r: Resolution): (c: int)
    ensures 0 <= c <= 4 && RESOLUTION_MEMBERS[c] == r
  {
    ResolutionPair(r).0
  }

  /** `str(r)`: the second element of the pair. */
  function ResolutionLabel(r: Resolution): (s: string)
    ensures s == ["Fixed", "Won't Fix", "Invalid", "Duplication", "Cannot Reproduce"][ResolutionToValue(r)]
  {
    ResolutionPair(r).1
  }

  /** `Resolution.value_of(code)`: the member whose code is `code`, or a ValueError. */
  function ResolutionValueOf(code: int): (r: Result<Resolution>)
    ensures r.Ok? ==> ResolutionToValue(r.value) == code
    ensures r.Err? ==> r.error == UnknownCode(code)
  {
    ValueOf(RESOLUTION_MEMBERS, ResolutionPair, code)
  }

  /** The codes that `value_of` accepts are exactly 0 to 4, in declaration order;
      any other code is a ValueError. */
  lemma ResolutionValueOfTable(code: int)
    ensures ResolutionValueOf(code).Ok? <==> 0 <= code <= 4
    ensures 0 <= code <= 4 ==> ResolutionValueOf(code) == Ok(RESOLUTION_MEMBERS[code])
    ensures !(0 <= code <= 4) ==> ResolutionValueOf(code) == Err(UnknownCode(code))
  {
    var ms := RESOLUTION_MEMBERS;
    assert forall i :: 0 <= i < |ms| ==> ResolutionPair(ms[i]).0 == i;
    if 0 <= code <= 4 {
      assert ResolutionPair(ms[code]).0 == code;
    }
  }

  /** `to_value()` and `str()` of each member are the two halves of its
      declared pair, and no two members share a code or a label. */
  lemma ResolutionMembers()
    ensures ResolutionToValue(Fixed) == 0 && ResolutionLabel(Fixed) == "Fixed"
    ensures ResolutionToValue(WontFix) == 1 && ResolutionLabel(WontFix) == "Won't Fix"
    ensures ResolutionToValue(Invalid) == 2 && ResolutionLabel(Invalid) == "Invalid"
    ensures ResolutionToValue(Duplication) == 3 && ResolutionLabel(Duplication) == "Duplication"
    ensures ResolutionToValue(CannotReproduce) == 4 && ResolutionLabel(CannotReproduce) == "Cannot Reproduce"
    ensures forall p, q :: p != q ==> ResolutionToValue(p) != ResolutionToValue(q)
    ensures forall p, q :: p != q ==> ResolutionLabel(p) != ResolutionLabel(q)
  {
  }

  /** Every member round-trips through its code. */
  lemma ResolutionRoundTrip(r: Resolution)
    ensures ResolutionValueOf(ResolutionToValue(r)) == Ok(r)
  {
    ResolutionValueOfTable(ResolutionToValue(r));
    assert RESOLUTION_MEMBERS[ResolutionToValue(r)] == r;
  }
}

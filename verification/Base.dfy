/** Identifiers, instants, results, errors, trimmed text, and sums and cardinalities over finite sets. */
module Base {

  /** An identifier: random or numbered in the program, so only its identity matters here. */
  type Id = nat

  /** An instant in whole seconds. */
  type Time = int

  const ZERO_TIME: Time := -62135596800
  const MINUTE := 60
  const HOUR := 3600
  const DAY := 86400

  datatype Option<+T> = None | Some(value: T)

  /** The sentinel errors a caller can distinguish. */
  datatype Err =
    | NotFound
    | Conflict
    | InvalidTransition
    | Validation
    | CapacityExceeded
    | VersionConflict
    | Expired
    | Forbidden
    | Unauthenticated
    | InvalidState
    | Unclassified       // an error that wraps no sentinel

  datatype Result<+T> = Success(value: T) | Failure(error: Err) {
    predicate IsFailure() {
      Failure?
    }

    function PropagateFailure<U>(): Result<U>
      requires Failure?
    {
      Failure(error)
    }

    function Extract(): T
      requires Success?
    {
      value
    }
  }

  /** A refused write leaves what was there. */
  function OrKeep<T>(r: Result<T>, kept: T): T {
    match r
    case Success(after) => after
    case Failure(_) => kept
  }

  /** What a failed check leaves behind: nothing, or the first error met. */
  type Check = Option<Err>

  // ---------------------------------------------------------------- text

  /** Unicode white space. */
  predicate IsSpace(c: char) {
    || '\t' <= c <= '\r' || c == ' ' || c == '\U{85}' || c == '\U{a0}'
    || c == '\U{1680}' || '\U{2000}' <= c <= '\U{200a}' || c == '\U{2028}' || c == '\U{2029}'
    || c == '\U{202f}' || c == '\U{205f}' || c == '\U{3000}'
  }

  function TrimLeft(s: string): (t: string)
    ensures t == [] || !IsSpace(t[0])
    ensures |t| <= |s| && t == s[|s| - |t|..]
  {
    if s != [] && IsSpace(s[0]) then TrimLeft(s[1..]) else s
  }

  function TrimRight(s: string): (t: string)
    ensures t == [] || !IsSpace(t[|t| - 1])
    ensures t <= s
  {
    if s != [] && IsSpace(s[|s| - 1]) then TrimRight(s[..|s| - 1]) else s
  }

  function Trim(s: string): string {
    TrimRight(TrimLeft(s))
  }

  /** Nothing but white space: what trimming leaves empty. */
  predicate Blank(s: string) {
    forall i :: 0 <= i < |s| ==> IsSpace(s[i])
  }

  /** The white space there is, by code point. */
  lemma WhiteSpaceIs(c: char)
    ensures IsSpace(c) <==>
            || c as int in {9, 10, 11, 12, 13, 32, 133, 160, 5760, 8232, 8233, 8239, 8287, 12288}
            || 8192 <= c as int <= 8202
  {
  }

  lemma {:induction false} TrimLeftMeans(s: string)
    ensures forall k :: 0 <= k < |s| - |TrimLeft(s)| ==> IsSpace(s[k])
  {
    hide IsSpace;
    if s != [] && IsSpace(s[0]) {
      TrimLeftMeans(s[1..]);
      forall k | 0 <= k < |s| - |TrimLeft(s)| ensures IsSpace(s[k]) {
        assert k > 0 ==> s[k] == s[1..][k - 1];
      }
    } else {
    }
  }

  lemma {:induction false} TrimRightMeans(s: string)
    ensures forall k :: |TrimRight(s)| <= k < |s| ==> IsSpace(s[k])
    ensures s != [] && !IsSpace(s[0]) ==> TrimRight(s) != []
  {
    hide IsSpace;
    if s != [] && IsSpace(s[|s| - 1]) {
      TrimRightMeans(s[..|s| - 1]);
    } else {
    }
  }

  /** Trimming cuts off white space at both ends, all of it, and nothing else. */
  lemma {:induction false} TrimMeans(s: string) returns (i: nat, j: nat)
    ensures i <= j <= |s| && Trim(s) == s[i..j]
    ensures forall k :: 0 <= k < i || j <= k < |s| ==> IsSpace(s[k])
    ensures i < j ==> !IsSpace(s[i]) && !IsSpace(s[j - 1])
  {
    hide IsSpace, TrimLeft, TrimRight;
    var t := TrimLeft(s);
    var u := TrimRight(t);
    TrimLeftMeans(s);
    TrimRightMeans(t);
    i := |s| - |t|;
    j := i + |u|;
    assert t == s[i..] && u == t[..|u|];
    assert forall k :: j <= k < |s| ==> s[k] == t[k - i];
    assert i < j ==> s[i] == t[0] && s[j - 1] == u[|u| - 1];
  }

  /** Nothing is left exactly when there was nothing but white space. */
  lemma {:induction false} BlankIff(s: string)
    ensures Blank(s) <==> Trim(s) == []
    ensures Blank(Trim(s)) <==> Trim(s) == []
  {
    hide IsSpace, Trim;
    var i, j := TrimMeans(s);
    if i < j {
      assert Trim(s)[0] == s[i];
    }
  }

  /** Text between two characters that are not white space is its own trimming. */
  lemma NotBlank(s: string)
    requires s != [] && !IsSpace(s[0]) && !IsSpace(s[|s| - 1])
    ensures !Blank(s) && Trim(s) == s
  {
    hide IsSpace;
  }

  /** How many bytes a character takes in UTF-8. */
  function Width(c: char): nat {
    var code := c as int;
    if code < 0x80 then 1 else if code < 0x800 then 2 else if code < 0x10000 then 3 else 4
  }

  /** The length of a text in bytes. */
  function Bytes(s: string): nat {
    if s == [] then 0 else Bytes(s[..|s| - 1]) + Width(s[|s| - 1])
  }

  /** It is the number of characters exactly when all are below 128. */
  lemma {:induction false} BytesIff(s: string)
    ensures |s| <= Bytes(s) <= 4 * |s|
    ensures Bytes(s) == |s| <==> forall i :: 0 <= i < |s| ==> s[i] as int < 128
  {
    if s == [] {
    } else {
      BytesIff(s[..|s| - 1]);
    }
  }

  // ---------------------------------------------------------------- sets

  lemma {:induction false} SubsetCardinality<T>(a: set<T>, b: set<T>)
    requires a <= b
    ensures |a| <= |b|
    ensures |a| == |b| ==> a == b
  {
    if a == {} {
    } else {
      var x :| x in a;
      SubsetCardinality(a - {x}, b - {x});
    }
  }

  /** The weights of the members of s, added up. */
  ghost function Sum<T(!new)>(s: set<T>, weight: map<T, int>): int
    requires s <= weight.Keys
  {
    if s == {} then 0 else
      var x :| x in s;
      weight[x] + Sum(s - {x}, weight)
  }

  /** Any member may be split off first. */
  lemma {:induction false} SumSplit<T(!new)>(s: set<T>, weight: map<T, int>, x: T)
    requires s <= weight.Keys && x in s
    ensures Sum(s, weight) == weight[x] + Sum(s - {x}, weight)
  {
    var y :| y in s && Sum(s, weight) == weight[y] + Sum(s - {y}, weight);
    if y != x {
      SumSplit(s - {y}, weight, x);
      SumSplit(s - {x}, weight, y);
      assert s - {x} - {y} == s - {y} - {x};
    }
  }

  lemma {:induction false} SumAgree<T(!new)>(s: set<T>, v: map<T, int>, w: map<T, int>)
    requires s <= v.Keys && s <= w.Keys
    requires forall x :: x in s ==> v[x] == w[x]
    ensures Sum(s, v) == Sum(s, w)
  {
    if s == {} {
    } else {
      var x :| x in s;
      SumSplit(s, v, x);
      SumSplit(s, w, x);
      SumAgree(s - {x}, v, w);
    }
  }

  /** Weights of at least one make a sum at least as large as the set. */
  lemma {:induction false} SumAtLeastSize<T(!new)>(s: set<T>, weight: map<T, int>)
    requires s <= weight.Keys
    requires forall x :: x in s ==> weight[x] >= 1
    ensures Sum(s, weight) >= |s|
  {
    if s == {} {
    } else {
      var x :| x in s;
      SumSplit(s, weight, x);
      SumAtLeastSize(s - {x}, weight);
    }
  }

  lemma {:induction false} SumNonNegative<T(!new)>(s: set<T>, weight: map<T, int>)
    requires s <= weight.Keys
    requires forall x :: x in s ==> weight[x] >= 0
    ensures Sum(s, weight) >= 0
  {
    if s == {} {
    } else {
      var x :| x in s;
      SumSplit(s, weight, x);
      SumNonNegative(s - {x}, weight);
    }
  }

  /** If no weight grows and each marked one falls by at least one, the sum falls by the marks. */
  lemma {:induction false} SumFalls<T(!new)>(s: set<T>, v: map<T, int>, w: map<T, int>, marked: set<T>)
    requires s <= v.Keys && s <= w.Keys && marked <= s
    requires forall x :: x in s ==> w[x] <= v[x] - (if x in marked then 1 else 0)
    ensures Sum(s, w) + |marked| <= Sum(s, v)
  {
    if s == {} {
    } else {
      var x :| x in s;
      SumSplit(s, v, x);
      SumSplit(s, w, x);
      SumFalls(s - {x}, v, w, marked - {x});
    }
  }

  lemma {:induction false} SumDisjoint<T(!new)>(a: set<T>, b: set<T>, weight: map<T, int>)
    requires a !! b && a + b <= weight.Keys
    ensures Sum(a + b, weight) == Sum(a, weight) + Sum(b, weight)
  {
    if a == {} {
      assert a + b == b;
    } else {
      var x :| x in a;
      SumSplit(a, weight, x);
      SumSplit(a + b, weight, x);
      assert a + b - {x} == (a - {x}) + b;
      SumDisjoint(a - {x}, b, weight);
    }
  }
}

/** Small types shared by the models: optional values, results, and the JSON
    values that node payloads and tool inputs are made of. */
module Common {

  datatype Option<+T> = None | Some(value: T)

  datatype Result<+T, +E> = Success(value: T) | Failure(error: E)

  /** A JSON value as the Python side sees it; Null is None. */
  datatype Json =
    | Null
    | Bool(b: bool)
    | Num(n: int)
    | Str(s: string)
    | List(items: seq<Json>)
    | Dict(fields: map<string, Json>)

  /** Python truthiness. */
  predicate Truthy(j: Json) {
    match j
    case Null => false
    case Bool(b) => b
    case Num(n) => n != 0
    case Str(s) => s != ""
    case List(items) => items != []
    case Dict(fields) => fields != map[]
  }

  /** The values Python takes for false. */
  ghost predicate Falsy(j: Json) {
    j in {Null, Bool(false), Num(0), Str(""), List([]), Dict(map[])}
  }

  /** A field of a dict, or None when it is absent. */
  function Get(d: map<string, Json>, key: string): Json {
    if key in d then d[key] else Null
  }

  /** Python's str.strip whitespace. */
  predicate PySpace(c: char) {
    var n := c as int;
    || 0x09 <= n <= 0x0d || 0x1c <= n <= 0x20 || n == 0x85 || n == 0xa0 || n == 0x1680
    || 0x2000 <= n <= 0x200a || n == 0x2028 || n == 0x2029 || n == 0x202f || n == 0x205f || n == 0x3000
  }

  /** `s` without leading and trailing characters that count as space. */
  function Trim(s: string, space: char -> bool): string {
    if s != "" && space(s[0]) then Trim(s[1..], space)
    else if s != "" && space(s[|s| - 1]) then Trim(s[..|s| - 1], space)
    else s
  }

  function Strip(s: string): string {
    Trim(s, PySpace)
  }

  /** Trimming leaves nothing iff there was nothing but space. */
  lemma {:induction false} TrimBlank(s: string, space: char -> bool)
    ensures Trim(s, space) == "" <==> forall k :: 0 <= k < |s| ==> space(s[k])
    decreases |s|
  {
    if s != "" && space(s[0]) {
      TrimBlank(s[1..], space);
      assert forall k :: 0 < k < |s| ==> s[k] == s[1..][k - 1];
      assert forall k :: 0 <= k < |s| - 1 ==> s[1..][k] == s[k + 1];
    } else if s != "" && space(s[|s| - 1]) {
      TrimBlank(s[..|s| - 1], space);
      assert !space(s[0]);
    }
  }

  ghost predicate Blank(s: string, space: char -> bool) {
    forall k :: 0 <= k < |s| ==> space(s[k])
  }

  /** What trimming cuts off is blank, and what it leaves has no blank end. */
  lemma {:induction false} TrimCuts(s: string, space: char -> bool) returns (front: string, back: string)
    ensures s == front + Trim(s, space) + back
    ensures Blank(front, space) && Blank(back, space)
    ensures var t := Trim(s, space); t == "" || (!space(t[0]) && !space(t[|t| - 1]))
    decreases |s|
  {
    if s != "" && space(s[0]) {
      front, back := TrimCuts(s[1..], space);
      front := [s[0]] + front;
    } else if s != "" && space(s[|s| - 1]) {
      front, back := TrimCuts(s[..|s| - 1], space);
      back := back + [s[|s| - 1]];
    } else {
      front, back := "", "";
    }
  }

  /** And it does so in one way only. */
  lemma {:induction false} TrimUnique(front: string, t: string, back: string, space: char -> bool)
    requires Blank(front, space) && Blank(back, space)
    requires t == "" || (!space(t[0]) && !space(t[|t| - 1]))
    ensures Trim(front + t + back, space) == t
    decreases |front| + |back|
  {
    var s := front + t + back;
    if front != "" {
      assert s[1..] == front[1..] + t + back;
      TrimUnique(front[1..], t, back, space);
    } else if back != "" {
      var shorter := back[..|back| - 1];
      if t == "" {
        assert s == back + t + "" && s[1..] == "" + t + back[1..];
        TrimUnique("", t, back[1..], space);
      } else {
        assert s[0] == t[0] && s[..|s| - 1] == front + t + shorter;
        TrimUnique(front, t, shorter, space);
      }
    } else {
      assert s == t;
    }
  }

  /** The 29 characters that Python's strip removes. */
  lemma PythonBlanks(c: char)
    ensures PySpace(c) <==>
      c as int in {0x9, 0xa, 0xb, 0xc, 0xd, 0x1c, 0x1d, 0x1e, 0x1f, 0x20, 0x85, 0xa0, 0x1680, 0x2000, 0x2001, 0x2002,
                   0x2003, 0x2004, 0x2005, 0x2006, 0x2007, 0x2008, 0x2009, 0x200a, 0x2028, 0x2029, 0x202f, 0x205f,
                   0x3000}
  {
  }

  function DropTrailingNewlines(s: string): string {
    if s != "" && s[|s| - 1] == '\n' then DropTrailingNewlines(s[..|s| - 1]) else s
  }

  /** Only newlines are dropped, and all of them. */
  lemma {:induction false} NewlinesDropped(s: string) returns (dropped: string)
    ensures s == DropTrailingNewlines(s) + dropped
    ensures forall k :: 0 <= k < |dropped| ==> dropped[k] == '\n'
    ensures var t := DropTrailingNewlines(s); t == "" || t[|t| - 1] != '\n'
  {
    if s != "" && s[|s| - 1] == '\n' {
      dropped := NewlinesDropped(s[..|s| - 1]);
      dropped := dropped + "\n";
    } else {
      dropped := "";
    }
  }

  /** `at` lists, in order, the positions of all elements of `s` that `p` holds of. */
  ghost predicate Selects<T(!new)>(s: seq<T>, p: T -> bool, at: seq<nat>) {
    && (forall i :: 0 <= i < |at| ==> at[i] < |s| && p(s[at[i]]))
    && (forall i, j :: 0 <= i < j < |at| ==> at[i] < at[j])
    && (forall k :: 0 <= k < |s| && p(s[k]) ==> k in at)
  }

  lemma SelectsSnoc<T(!new)>(s: seq<T>, p: T -> bool, at: seq<nat>, last: T)
    requires Selects(s, p, at)
    ensures !p(last) ==> Selects(s + [last], p, at)
    ensures p(last) ==> Selects(s + [last], p, at + [|s|])
  {
    var longer, at' := s + [last], at + [|s|];
    assert longer[|s|] == last && at'[|at|] == |s|;
    forall k | 0 <= k < |s| && p(longer[k]) ensures k in at && k in at' {
      assert longer[k] == s[k];
      var i :| 0 <= i < |at| && at[i] == k;
      assert at'[i] == k;
    }
    forall i | 0 <= i < |at| ensures at[i] < |s| && p(longer[at[i]]) && at'[i] == at[i] {
      assert longer[at[i]] == s[at[i]];
    }
  }

  /** The position of the last element that `p` holds of, if there is one. */
  ghost predicate LastAt<T>(s: seq<T>, p: T -> bool, at: Option<nat>) {
    match at
    case Some(k) => k < |s| && p(s[k]) && forall j :: k < j < |s| ==> !p(s[j])
    case None => forall j :: 0 <= j < |s| ==> !p(s[j])
  }

  /** The position of the first. */
  ghost predicate FirstAt<T>(s: seq<T>, p: T -> bool, at: Option<nat>) {
    match at
    case Some(k) => k < |s| && p(s[k]) && forall j :: 0 <= j < k ==> !p(s[j])
    case None => forall j :: 0 <= j < |s| ==> !p(s[j])
  }

  lemma LastAtSnoc<T>(s: seq<T>, p: T -> bool, at: Option<nat>, last: T)
    requires LastAt(s, p, at)
    ensures LastAt(s + [last], p, if p(last) then Some(|s|) else at)
  {
  }

  lemma FirstAtSnoc<T>(s: seq<T>, p: T -> bool, at: Option<nat>, last: T)
    requires FirstAt(s, p, at)
    ensures FirstAt(s + [last], p, if at.None? && p(last) then Some(|s|) else at)
  {
  }

  lemma Associate<T>(a: seq<T>, b: seq<T>, c: seq<T>)
    ensures (a + b) + c == a + (b + c)
  {
  }

  ghost predicate NoDuplicates<T>(s: seq<T>) {
    forall i, j :: 0 <= i < j < |s| ==> s[i] != s[j]
  }

  ghost function Elements<T>(s: seq<T>): set<T> {
    set x | x in s
  }

  /** A list without duplicates is as long as its set of elements. */
  lemma {:induction false} NoDuplicatesSize<T(!new)>(s: seq<T>)
    requires NoDuplicates(s)
    ensures |Elements(s)| == |s|
  {
    if s != [] {
      var last := |s| - 1;
      NoDuplicatesSize(s[..last]);
      assert Elements(s) == Elements(s[..last]) + {s[last]} by {
        assert s == s[..last] + [s[last]];
      }
      assert s[last] !in s[..last];
    } else {
      assert Elements(s) == {};
    }
  }

  /** A set listed in some order: no element twice, none missing. */
  ghost predicate Enumerates<T(!new)>(s: seq<T>, elements: set<T>) {
    NoDuplicates(s) && (forall x :: x in s <==> x in elements)
  }

  /** Iterating over a Python set: any order, each element once. */
  method Enumerate<T(!new, ==)>(elements: set<T>) returns (s: seq<T>)
    ensures Enumerates(s, elements)
  {
    s := [];
    var left := elements;
    while left != {}
      invariant left <= elements
      invariant Enumerates(s, elements - left)
      decreases left
    {
      var x :| x in left;
      s := s + [x];
      left := left - {x};
    }
  }
}

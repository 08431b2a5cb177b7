/** Failure-carrying results, optional values and the error classes of the runtime. */
module Prelude {
  datatype Option<+T> = None | Some(value: T)

  /** The exceptions a runtime call can raise (errors.py), plus the three built-in ones it
      lets through: ValueError, PermissionError and the store's own IntegrityError. */
  datatype Error =
    | ConcurrencyConflict
    | IdempotencyConflict
    | InvalidTransition
    | NotFound
    | ResourceConflict
    | StaleLease
    | ReconciliationRequired
    | ValueError
    | PermissionError
    | IntegrityError

  datatype Result<+T> = Ok(value: T) | Err(error: Error) {
    predicate IsFailure() { Err? }

    function PropagateFailure<U>(): Result<U>
      requires Err?
    {
      Err(error)
    }

    function Extract(): T
      requires Ok?
    {
      value
    }
  }

  datatype Check = Pass | Fail(error: Error) {
    predicate IsFailure() { Fail? }

    function PropagateFailure<U>(): Result<U>
      requires Fail?
    {
      Err(error)
    }
  }

  /** Raises `error` unless `condition` holds. */
  function Need(condition: bool, error: Error): Check {
    if condition then Pass else Fail(error)
  }

  function Lookup<K, V>(table: map<K, V>, key: K): Option<V> {
    if key in table then Some(table[key]) else None
  }

  /** The value of an option; any value when there is none. */
  ghost function The<T(00)>(o: Option<T>): T {
    if o.Some? then o.value else var v: T :| true; v
  }

  /** The row under a key; any row when there is none. */
  ghost function Row<K, V(00)>(table: map<K, V>, key: K): V {
    if key in table then table[key] else var v: V :| true; v
  }

  /** The characters `str.strip()` and `str.split()` take for white space. */
  predicate IsWhite(c: char) {
    || '\U{9}' <= c <= '\U{D}' || '\U{1C}' <= c <= '\U{20}' || c == '\U{85}' || c == '\U{A0}' || c == '\U{1680}'
    || '\U{2000}' <= c <= '\U{200A}' || c == '\U{2028}' || c == '\U{2029}' || c == '\U{202F}' || c == '\U{205F}'
    || c == '\U{3000}'
  }

  /** A string with a character other than white space; the source tests `value.strip()`. */
  predicate NonBlank(text: string) {
    exists i :: 0 <= i < |text| && !IsWhite(text[i])
  }

  /** `text.strip()`. */
  function Strip(text: string): string {
    if text == "" then ""
    else if IsWhite(text[0]) then Strip(text[1..])
    else StripEnd(text)
  }

  function StripEnd(text: string): string {
    if text == "" then ""
    else if IsWhite(text[|text| - 1]) then StripEnd(text[..|text| - 1])
    else text
  }

  /** `" ".join(text.split())`; the flag says whether a gap is waiting for its next word. */
  function Compact(text: string): (string, bool) {
    if text == "" then ("", false)
    else
      var (words, gap) := Compact(text[..|text| - 1]);
      var last := text[|text| - 1];
      if IsWhite(last) then (words, words != "")
      else (words + (if gap then " " else "") + [last], false)
  }

  lemma SplitLast<T>(items: seq<T>)
    requires items != []
    ensures items == items[..|items| - 1] + [items[|items| - 1]]
  {
  }

  /** The state after a sequence of calls. */
  function Fold<S, C>(next: (S, C) -> S, start: S, calls: seq<C>): S {
    if calls == [] then start else next(Fold(next, start, calls[..|calls| - 1]), calls[|calls| - 1])
  }

  /** Every call of the sequence is made in a state that allows it. */
  ghost predicate AllAllowed<S, C>(next: (S, C) -> S, allows: (S, C) -> bool, start: S, calls: seq<C>) {
    if calls == [] then true
    else
      && AllAllowed(next, allows, start, calls[..|calls| - 1])
      && allows(Fold(next, start, calls[..|calls| - 1]), calls[|calls| - 1])
  }

  // =========================================================================== ordering
  // The stable sort behind `sorted(items, key=...)`.

  predicate InOrder<T>(items: seq<T>, key: T -> int) {
    forall i, j :: 0 <= i < j < |items| ==> key(items[i]) <= key(items[j])
  }

  /** Inserts behind every item whose key is not larger, as a stable sort does. */
  function Place<T>(items: seq<T>, item: T, key: T -> int): seq<T> {
    if items == [] || key(items[|items| - 1]) <= key(item) then items + [item]
    else Place(items[..|items| - 1], item, key) + [items[|items| - 1]]
  }

  function SortBy<T>(items: seq<T>, key: T -> int): seq<T> {
    if items == [] then [] else Place(SortBy(items[..|items| - 1], key), items[|items| - 1], key)
  }

  lemma SameLength<T>(a: seq<T>, b: seq<T>)
    requires multiset(a) == multiset(b)
    ensures |a| == |b|
  {
    assert |a| == |multiset(a)| && |b| == |multiset(b)|;
  }

  lemma {:induction false} PlaceKeepsItems<T>(items: seq<T>, item: T, key: T -> int)
    ensures multiset(Place(items, item, key)) == multiset(items) + multiset{item}
    decreases |items|
  {
    if items != [] {
      assert items == items[..|items| - 1] + [items[|items| - 1]];
      PlaceKeepsItems(items[..|items| - 1], item, key);
    }
  }

  lemma {:induction false} PlaceKeepsOrder<T>(items: seq<T>, item: T, key: T -> int)
    requires InOrder(items, key)
    ensures InOrder(Place(items, item, key), key)
    ensures forall i :: 0 <= i < |Place(items, item, key)| ==>
      key(Place(items, item, key)[i]) <= key(item)
      || (items != [] && key(Place(items, item, key)[i]) <= key(items[|items| - 1]))
    decreases |items|
  {
    if items != [] {
      PlaceKeepsOrder(items[..|items| - 1], item, key);
    }
  }

  /** Sorting keeps every item and puts them in order. */
  lemma {:induction false} SortIsSort<T>(items: seq<T>, key: T -> int)
    ensures multiset(SortBy(items, key)) == multiset(items)
    ensures InOrder(SortBy(items, key), key)
    decreases |items|
  {
    if items != [] {
      var n := |items| - 1;
      SortIsSort(items[..n], key);
      PlaceKeepsItems(SortBy(items[..n], key), items[n], key);
      PlaceKeepsOrder(SortBy(items[..n], key), items[n], key);
      assert items == items[..n] + [items[n]];
    }
  }

  predicate DistinctBy<T, K(==)>(items: seq<T>, key: T -> K) {
    forall i, j :: 0 <= i < j < |items| ==> key(items[i]) != key(items[j])
  }

  /** Distinct keys survive reordering: duplicates cannot hide. */
  lemma DistinctAcross<T, K>(a: seq<T>, b: seq<T>, key: T -> K)
    requires multiset(a) == multiset(b) && DistinctBy(a, key)
    ensures DistinctBy(b, key)
  {
    forall i, j | 0 <= i < j < |b|
      ensures key(b[i]) != key(b[j])
    {
      if key(b[i]) == key(b[j]) {
        assert b[i] in multiset(b) && b[j] in multiset(b);
        var k :| 0 <= k < |a| && a[k] == b[i];
        var l :| 0 <= l < |a| && a[l] == b[j];
        assert k == l;
        TwiceInMultiset(b, i, j);
        OnceInMultiset(a, k, key);
      }
    }
  }

  lemma TwiceInMultiset<T>(b: seq<T>, i: nat, j: nat)
    requires i < j < |b| && b[i] == b[j]
    ensures multiset(b)[b[i]] >= 2
  {
    assert b == b[..i] + [b[i]] + b[i + 1..j] + [b[j]] + b[j + 1..];
  }

  lemma OnceInMultiset<T, K>(a: seq<T>, k: nat, key: T -> K)
    requires k < |a| && DistinctBy(a, key)
    ensures multiset(a)[a[k]] == 1
  {
    assert a == a[..k] + [a[k]] + a[k + 1..];
    assert forall i :: 0 <= i < k ==> key(a[i]) != key(a[k]);
    assert forall i :: k < i < |a| ==> key(a[k]) != key(a[i]);
  }
}

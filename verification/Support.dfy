/** The two list helpers of the admission webhook: replace-or-append by name, and the check that
    the first entry of a given name is compatible with an expected one. */
module Support {
  import opened Wrappers

  // ---------------------------------------------------------------- specification

  /** Index of the first entry called `name`, or the length of the list. */
  function IndexOf<T>(items: seq<T>, key: T -> string, name: string): (i: nat)
    ensures i <= |items|
    ensures i < |items| ==> key(items[i]) == name
    ensures forall j | 0 <= j < i :: key(items[j]) != name
  {
    if items == [] || key(items[0]) == name then 0 else 1 + IndexOf(items[1..], key, name)
  }

  /** The first entry called `name`, if there is one. */
  function First<T>(items: seq<T>, key: T -> string, name: string): Option<T> {
    var i := IndexOf(items, key, name);
    if i < |items| then Some(items[i]) else None
  }

  predicate Has<T>(items: seq<T>, key: T -> string, name: string) {
    IndexOf(items, key, name) < |items|
  }

  function UpsertBy<T>(items: seq<T>, item: T, key: T -> string): seq<T> {
    var i := IndexOf(items, key, key(item));
    if i < |items| then items[i := item] else items + [item]
  }

  function UpsertAll<T>(items: seq<T>, news: seq<T>, key: T -> string): seq<T>
    decreases |news|
  {
    if news == [] then items else UpsertAll(UpsertBy(items, news[0], key), news[1..], key)
  }

  /** Where a validation error is reported; it fixes the field path and the message. */
  datatype Location =
    | EnableIngress | HeadAccount
    | HeadContainers | HeadProxyVolumes | HeadInits | HeadEnv | HeadCaVolumes
    | WorkerInits(group: nat) | WorkerEnv(group: nat) | WorkerCaVolumes(group: nat)

  datatype Fault = Required | Invalid
  datatype FieldError = FieldError(fault: Fault, at: Location)

  function CheckItem<T>(items: seq<T>, item: T, key: T -> string, derives: (T, T) -> bool,
                        at: Location): Option<FieldError> {
    var i := IndexOf(items, key, key(item));
    if i == |items| then Some(FieldError(Required, at))
    else if derives(item, items[i]) then None
    else Some(FieldError(Invalid, at))
  }

  // ---------------------------------------------------------------- the operations

  method Upsert<T>(items: seq<T>, item: T, matches: (T, T) -> bool) returns (r: seq<T>)
    ensures (forall j | 0 <= j < |items| :: !matches(items[j], item)) ==> r == items + [item]
    ensures forall i | 0 <= i < |items| && matches(items[i], item) &&
                       (forall j | 0 <= j < i :: !matches(items[j], item)) :: r == items[i := item]
  {
    for i := 0 to |items|
      invariant forall j | 0 <= j < i :: !matches(items[j], item)
    {
      if matches(items[i], item) {
        return items[i := item];
      }
    }
    return items + [item];
  }

  method Contains<T>(items: seq<T>, item: T, matches: (T, T) -> bool, derives: (T, T) -> bool,
                     at: Location) returns (r: Option<FieldError>)
    ensures (forall j | 0 <= j < |items| :: !matches(items[j], item)) ==>
              r == Some(FieldError(Required, at))
    ensures forall i | 0 <= i < |items| && matches(items[i], item) &&
                       (forall j | 0 <= j < i :: !matches(items[j], item)) ::
              r == if derives(item, items[i]) then None else Some(FieldError(Invalid, at))
  {
    for i := 0 to |items|
      invariant forall j | 0 <= j < i :: !matches(items[j], item)
    {
      if matches(items[i], item) {
        if derives(item, items[i]) {
          return None;
        }
        return Some(FieldError(Invalid, at));
      }
    }
    return Some(FieldError(Required, at));
  }

  /** The declarative reading of the check: the first entry with the name of `item` is compatible. */
  ghost predicate FirstDerives<T>(items: seq<T>, item: T, key: T -> string, derives: (T, T) -> bool) {
    exists i | 0 <= i < |items| ::
      && key(items[i]) == key(item)
      && (forall k | 0 <= k < i :: key(items[k]) != key(item))
      && derives(item, items[i])
  }

  ghost predicate Missing<T>(items: seq<T>, item: T, key: T -> string) {
    forall i | 0 <= i < |items| :: key(items[i]) != key(item)
  }

  /** No error exactly when the first holder is compatible, Required exactly when there is none. */
  lemma CheckItemExact<T>(items: seq<T>, item: T, key: T -> string, derives: (T, T) -> bool, at: Location)
    ensures var r := CheckItem(items, item, key, derives, at);
            && (r.None? <==> FirstDerives(items, item, key, derives))
            && (r == Some(FieldError(Required, at)) <==> Missing(items, item, key))
            && (r.Some? ==> r.value == FieldError(if Missing(items, item, key) then Required else Invalid, at))
  {
    var i := IndexOf(items, key, key(item));
    if i < |items| {
      assert key(items[i]) == key(item);
      if derives(item, items[i]) {
        assert FirstDerives(items, item, key, derives);
      }
    }
  }

  lemma FirstDecides<T>(items: seq<T>, item: T, key: T -> string, derives: (T, T) -> bool)
    ensures var a := First(items, key, key(item));
            && (FirstDerives(items, item, key, derives) <==> a.Some? && derives(item, a.value))
            && (a.Some? ==> key(a.value) == key(item))
  {
    var i := IndexOf(items, key, key(item));
    if i < |items| {
      assert key(items[i]) == key(item);
    }
  }

  /** The predicates handed to the two helpers all compare names. */
  ghost predicate ByName<T>(items: seq<T>, item: T, matches: (T, T) -> bool, key: T -> string) {
    forall j | 0 <= j < |items| :: matches(items[j], item) <==> key(items[j]) == key(item)
  }

  lemma FirstMatch<T>(items: seq<T>, item: T, matches: (T, T) -> bool, key: T -> string)
    requires ByName(items, item, matches, key)
    ensures var i := IndexOf(items, key, key(item));
            && (i == |items| ==> forall j | 0 <= j < |items| :: !matches(items[j], item))
            && (i < |items| ==> matches(items[i], item) && forall j | 0 <= j < i :: !matches(items[j], item))
  {
  }

  // ---------------------------------------------------------------- laws

  ghost predicate Distinct<T>(news: seq<T>, key: T -> string) {
    forall i, j | 0 <= i < j < |news| :: key(news[i]) != key(news[j])
  }

  /** The first entry with the name of `item` is `item`. */
  ghost predicate Holds<T>(items: seq<T>, item: T, key: T -> string) {
    var i := IndexOf(items, key, key(item));
    i < |items| && items[i] == item
  }

  lemma IndexOfUnique<T>(items: seq<T>, key: T -> string, name: string, i: nat)
    requires i <= |items|
    requires i < |items| ==> key(items[i]) == name
    requires forall j | 0 <= j < i :: key(items[j]) != name
    ensures IndexOf(items, key, name) == i
  {
  }

  /** What one upsert does to the position of any name. */
  lemma UpsertIndex<T>(items: seq<T>, item: T, key: T -> string, name: string)
    ensures var r := UpsertBy(items, item, key);
            && Holds(r, item, key)
            && IndexOf(r, key, key(item)) == IndexOf(items, key, key(item))
            && (Has(items, key, name) ==> IndexOf(r, key, name) == IndexOf(items, key, name))
            && (name != key(item) ==> Has(r, key, name) == Has(items, key, name))
            && (name != key(item) && Has(items, key, name) ==>
                  r[IndexOf(items, key, name)] == items[IndexOf(items, key, name)])
  {
    var r := UpsertBy(items, item, key);
    var i := IndexOf(items, key, key(item));
    IndexOfUnique(r, key, key(item), i);
    var k := IndexOf(items, key, name);
    if k < |items| {
      IndexOfUnique(r, key, name, k);
    } else if name != key(item) {
      IndexOfUnique(r, key, name, |r|);
    }
  }

  lemma UpsertKeeps<T>(items: seq<T>, item: T, other: T, key: T -> string)
    requires Holds(items, other, key) && key(other) != key(item)
    ensures Holds(UpsertBy(items, item, key), other, key)
  {
    UpsertIndex(items, item, key, key(other));
  }

  lemma {:induction false} UpsertAllKeeps<T>(items: seq<T>, news: seq<T>, other: T, key: T -> string)
    requires Holds(items, other, key)
    requires forall i | 0 <= i < |news| :: key(news[i]) != key(other)
    ensures Holds(UpsertAll(items, news, key), other, key)
    decreases |news|
  {
    if news != [] {
      UpsertKeeps(items, news[0], other, key);
      UpsertAllKeeps(UpsertBy(items, news[0], key), news[1..], other, key);
    }
  }

  /** After all upserts, the first holder of each injected name is the injected item. */
  lemma {:induction false} UpsertAllHolds<T>(items: seq<T>, news: seq<T>, key: T -> string)
    requires Distinct(news, key)
    ensures forall i | 0 <= i < |news| :: Holds(UpsertAll(items, news, key), news[i], key)
    decreases |news|
  {
    if news != [] {
      var once := UpsertBy(items, news[0], key);
      UpsertIndex(items, news[0], key, key(news[0]));
      UpsertAllKeeps(once, news[1..], news[0], key);
      UpsertAllHolds(once, news[1..], key);
      forall i | 0 <= i < |news| ensures Holds(UpsertAll(items, news, key), news[i], key) {
        if i > 0 { assert news[i] == news[1..][i - 1]; }
      }
    }
  }

  /** Upserting what is already held changes nothing. */
  lemma {:induction false} UpsertAllNoop<T>(items: seq<T>, news: seq<T>, key: T -> string)
    requires forall i | 0 <= i < |news| :: Holds(items, news[i], key)
    ensures UpsertAll(items, news, key) == items
    decreases |news|
  {
    if news != [] {
      assert UpsertBy(items, news[0], key) == items;
      forall i | 0 <= i < |news[1..]| ensures Holds(items, news[1..][i], key) {
        assert news[1..][i] == news[i + 1];
      }
      UpsertAllNoop(items, news[1..], key);
    }
  }

  lemma UpsertAllIdempotent<T>(items: seq<T>, news: seq<T>, key: T -> string)
    requires Distinct(news, key)
    ensures UpsertAll(UpsertAll(items, news, key), news, key) == UpsertAll(items, news, key)
  {
    UpsertAllHolds(items, news, key);
    UpsertAllNoop(UpsertAll(items, news, key), news, key);
  }

  // ---------------------------------------------------------------- closed form

  /** The injected items whose name is absent from `items`, in order. */
  function Additions<T>(items: seq<T>, news: seq<T>, key: T -> string): seq<T> {
    if news == [] then []
    else (if Has(items, key, key(news[0])) then [] else [news[0]]) + Additions(items, news[1..], key)
  }

  /** The injected item that takes the place of entry `i`, if `i` is the first holder of its name. */
  function Replacement<T>(items: seq<T>, i: nat, news: seq<T>, key: T -> string): T
    requires i < |items|
  {
    if news == [] then items[i]
    else if IndexOf(items, key, key(news[0])) == i then news[0]
    else Replacement(items, i, news[1..], key)
  }

  /** Reference definition of the injection: each entry keeps its place, the first holder of an
      injected name is replaced, and the absent items follow in their own order. */
  ghost predicate Injected<T>(items: seq<T>, news: seq<T>, key: T -> string, r: seq<T>) {
    && |r| == |items| + |Additions(items, news, key)|
    && (forall i | 0 <= i < |items| :: r[i] == Replacement(items, i, news, key))
    && r[|items|..] == Additions(items, news, key)
  }

  lemma {:induction false} AbsentAfter<T>(items: seq<T>, item: T, news: seq<T>, key: T -> string)
    requires forall i | 0 <= i < |news| :: key(news[i]) != key(item)
    ensures Additions(UpsertBy(items, item, key), news, key) == Additions(items, news, key)
  {
    if news != [] {
      UpsertIndex(items, item, key, key(news[0]));
      AbsentAfter(items, item, news[1..], key);
    }
  }

  lemma {:induction false} ReplacementAfter<T>(items: seq<T>, item: T, i: nat, news: seq<T>, key: T -> string)
    requires forall k | 0 <= k < |news| :: key(news[k]) != key(item)
    requires i < |items|
    ensures Replacement(UpsertBy(items, item, key), i, news, key) ==
            if IndexOf(items, key, key(item)) == i then item else Replacement(items, i, news, key)
  {
    if news != [] {
      UpsertIndex(items, item, key, key(news[0]));
      ReplacementAfter(items, item, i, news[1..], key);
    }
  }

  lemma {:induction false} ReplacementAppended<T>(items: seq<T>, item: T, news: seq<T>, key: T -> string)
    requires forall k | 0 <= k < |news| :: key(news[k]) != key(item)
    requires !Has(items, key, key(item))
    ensures Replacement(items + [item], |items|, news, key) == item
  {
    if news != [] {
      UpsertIndex(items, item, key, key(news[0]));
      ReplacementAppended(items, item, news[1..], key);
    }
  }

  /** One upsert ahead of the rest, where the name is present: it is replaced in place. */
  lemma InjectedPresent<T>(items: seq<T>, news: seq<T>, key: T -> string, r: seq<T>)
    requires news != [] && Distinct(news, key) && Has(items, key, key(news[0]))
    requires Injected(UpsertBy(items, news[0], key), news[1..], key, r)
    ensures Injected(items, news, key, r)
  {
    hide IndexOf;
    AbsentAfter(items, news[0], news[1..], key);
    forall i | 0 <= i < |items| ensures r[i] == Replacement(items, i, news, key) {
      ReplacementAfter(items, news[0], i, news[1..], key);
    }
  }

  /** One upsert ahead of the rest, where the name is absent: it is appended. */
  lemma InjectedAbsent<T>(items: seq<T>, news: seq<T>, key: T -> string, r: seq<T>)
    requires news != [] && Distinct(news, key) && !Has(items, key, key(news[0]))
    requires Injected(items + [news[0]], news[1..], key, r)
    ensures Injected(items, news, key, r)
  {
    hide IndexOf;
    var once := items + [news[0]];
    assert once == UpsertBy(items, news[0], key);
    AbsentAfter(items, news[0], news[1..], key);
    forall i | 0 <= i < |items| ensures r[i] == Replacement(items, i, news, key) {
      ReplacementAfter(items, news[0], i, news[1..], key);
    }
    ReplacementAppended(items, news[0], news[1..], key);
    assert r[|items|] == news[0];
    assert r[|items|..] == [news[0]] + r[|once|..];
  }

  /** The sequential upserts compute the reference definition, for arbitrary lists. */
  lemma {:induction false} UpsertAllInjects<T>(items: seq<T>, news: seq<T>, key: T -> string)
    requires Distinct(news, key)
    ensures Injected(items, news, key, UpsertAll(items, news, key))
    decreases |news|
  {
    if news == [] {
      assert items[|items|..] == [];
    } else {
      hide Injected, Replacement, Additions;
      assert Distinct(news[1..], key);
      UpsertAllInjects(UpsertBy(items, news[0], key), news[1..], key);
      var r := UpsertAll(items, news, key);
      if Has(items, key, key(news[0])) {
        InjectedPresent(items, news, key, r);
      } else {
        InjectedAbsent(items, news, key, r);
      }
    }
  }

  /** Additions names are appended behind an untouched list. */
  lemma {:induction false} UpsertAllAppends<T>(items: seq<T>, news: seq<T>, key: T -> string)
    requires Distinct(news, key)
    requires forall i | 0 <= i < |news| :: !Has(items, key, key(news[i]))
    ensures UpsertAll(items, news, key) == items + news
    decreases |news|
  {
    if news != [] {
      DistinctTail(news, key);
      StillAbsent(items, news, key);
      hide UpsertBy, Has, Distinct;
      UpsertAllAppends(items + [news[0]], news[1..], key);
      FirstThenRest(items, news);
    }
  }

  lemma DistinctTail<T>(news: seq<T>, key: T -> string)
    requires news != [] && Distinct(news, key)
    ensures Distinct(news[1..], key)
  {
    forall i, j | 0 <= i < j < |news[1..]| ensures key(news[1..][i]) != key(news[1..][j]) {
      assert news[1..][i] == news[i + 1] && news[1..][j] == news[j + 1];
    }
  }

  lemma FirstThenRest<T>(items: seq<T>, news: seq<T>)
    requires news != []
    ensures (items + [news[0]]) + news[1..] == items + news
  {
  }

  lemma StillAbsent<T>(items: seq<T>, news: seq<T>, key: T -> string)
    requires news != [] && Distinct(news, key)
    requires forall i | 0 <= i < |news| :: !Has(items, key, key(news[i]))
    ensures UpsertBy(items, news[0], key) == items + [news[0]]
    ensures forall i | 0 <= i < |news[1..]| :: !Has(items + [news[0]], key, key(news[1..][i]))
  {
    hide IndexOf;
    forall i | 0 <= i < |news[1..]| ensures !Has(items + [news[0]], key, key(news[1..][i])) {
      assert news[1..][i] == news[i + 1];
      UpsertIndex(items, news[0], key, key(news[i + 1]));
    }
  }
}

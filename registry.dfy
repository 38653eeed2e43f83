/** Pieces of the listener registry that all three versions of the client
    share: the per-type callback lists, removal by identity, the `once`
    request filter and the correlation key of a pending request. */
module Registry {
  import opened Js

  /** The list stored under `kind`, or the empty list when there is none. */
  function Registered<C>(m: map<string, seq<C>>, kind: string): seq<C> {
    if kind in m then m[kind] else []
  }

  /** `on(type, callback)` on the map: the list for `kind` is created if
      absent and the callback appended; no other list changes. */
  function Append<C>(m: map<string, seq<C>>, kind: string, callback: C): (r: map<string, seq<C>>)
    ensures r.Keys == m.Keys + {kind}
    ensures r[kind] == Registered(m, kind) + [callback]
    ensures forall k | k in m && k != kind :: r[k] == m[k]
  {
    m[kind := Registered(m, kind) + [callback]]
  }

  /** `off(type, callback)` on the map: a no-op when `kind` has no list. */
  function Remove<C(==,!new)>(m: map<string, seq<C>>, kind: string, callback: C): (r: map<string, seq<C>>)
    ensures r.Keys == m.Keys
    ensures kind in m ==> r[kind] == Without(m[kind], callback)
    ensures forall k | k in m && k != kind :: r[k] == m[k]
  {
    if kind in m then m[kind := Without(m[kind], callback)] else m
  }

  /** `list.filter(listener => listener !== callback)` */
  function Without<C(==,!new)>(list: seq<C>, callback: C): (r: seq<C>)
    ensures |r| <= |list|
    ensures forall x :: x in r <==> x in list && x != callback
  {
    if list == [] then []
    else (if list[0] == callback then [] else [list[0]]) + Without(list[1..], callback)
  }

  /** Filtering distributes over concatenation, so the survivors keep their
      relative order. */
  lemma {:induction false} WithoutConcat<C(!new)>(a: seq<C>, b: seq<C>, callback: C)
    ensures Without(a + b, callback) == Without(a, callback) + Without(b, callback)
  {
    if a == [] {
      assert a + b == b;
    } else {
      assert (a + b)[0] == a[0];
      assert (a + b)[1..] == a[1..] + b;
      WithoutConcat(a[1..], b, callback);
    }
  }

  /** Every other callback keeps its number of occurrences; the removed one has none. */
  lemma {:induction false} WithoutMultiset<C(!new)>(list: seq<C>, callback: C)
    ensures multiset(Without(list, callback)) == multiset(list)[callback := 0]
  {
    if list != [] {
      WithoutMultiset(list[1..], callback);
      assert list == [list[0]] + list[1..];
    }
  }

  /** Removing a callback that is not registered leaves the list as it was. */
  lemma {:induction false} WithoutAbsent<C(!new)>(list: seq<C>, callback: C)
    requires callback !in list
    ensures Without(list, callback) == list
  {
    if list != [] {
      WithoutAbsent(list[1..], callback);
      assert list == [list[0]] + list[1..];
    }
  }

  /** `on` followed by its remover: the list ends up as the old one without the
      callback, which is the old list itself when the callback was not there. */
  lemma AppendThenRemove<C(!new)>(list: seq<C>, callback: C)
    ensures Without(list + [callback], callback) == Without(list, callback)
    ensures callback !in list ==> Without(list + [callback], callback) == list
  {
    WithoutConcat(list, [callback], callback);
    assert Without([callback], callback) == [];
    if callback !in list {
      WithoutAbsent(list, callback);
    }
  }

  /** The guard of a `once` wrapper: `if (request && data.request !== request) return`. */
  predicate Matches(filter: Option<string>, request: Option<string>) {
    !TruthyText(filter) || request == filter
  }

  /** A `once` without a request filter accepts every message of its type. */
  lemma UnfilteredMatchesAll(filter: Option<string>, request: Option<string>)
    requires !TruthyText(filter)
    ensures Matches(filter, request)
  {
  }

  /** With a filter, exactly the messages carrying that request are accepted. */
  lemma FilteredMatchesExactly(filter: Option<string>, request: Option<string>)
    requires TruthyText(filter)
    ensures Matches(filter, request) <==> request == filter
  {
  }

  /** A JavaScript property key: `listeners[undefined]` reads the key "undefined". */
  function PropKey(kind: Option<string>): (r: string)
    ensures kind.Some? ==> r == kind.value
    ensures kind.None? ==> r == "undefined"
  {
    if kind.Some? then kind.value else "undefined"
  }

  /** The correlation key `${type}-${request || "undefined"}`. */
  function ListenKey(kind: string, request: Option<string>): string {
    kind + "-" + TextOr(request, "undefined")
  }

  /** An absent request, an empty one and the literal "undefined" share a key. */
  lemma ListenKeyUndefinedAliases(kind: string)
    ensures ListenKey(kind, None) == ListenKey(kind, Some("")) == ListenKey(kind, Some("undefined"))
  {
  }

  /** Distinct truthy requests of one type get distinct keys ... */
  lemma ListenKeySeparatesRequests(kind: string, r1: string, r2: string)
    requires r1 != "" && r2 != "" && r1 != r2
    ensures ListenKey(kind, Some(r1)) != ListenKey(kind, Some(r2))
  {
    var k1, k2 := ListenKey(kind, Some(r1)), ListenKey(kind, Some(r2));
    var n := |kind| + 1;
    assert k1[n..] == r1 && k2[n..] == r2;
  }

  /** ... but the key is not injective across types that contain a hyphen:
      type "a-b" with request "c" and type "a" with request "b-c" collide. */
  lemma ListenKeyHyphenCollision()
    ensures ListenKey("a-b", Some("c")) == ListenKey("a", Some("b-c"))
  {
  }

  /** A callback as the registry stores it: a function the app passed in, or
      a closure that `once` created (numbered in creation order). */
  datatype Callback = User(fn: nat) | Wrapper(id: nat)

  /** The closure that `on` and `once` return: `() => this.off(type, callback)`. */
  datatype Remover = Remover(kind: string, callback: Callback)

  /** What a user callback was called with: the whole inbound record, or,
      in the oldest client's routing, only its payload. */
  datatype Argument = Whole(message: Wire.Inbound) | PayloadOnly(payload: Value)

  /** One call of a user-supplied function, in the order calls happened. */
  datatype Invocation = Invocation(fn: nat, arg: Argument)

  import Wire
}

/** The two query shapes the handlers and pages use: a table scan with a
    `where` condition and an `order` (the backend's findAll), and an
    order-preserving filter over a list (the pages' Array.prototype.filter). */
module Query {
  import opened Common

  /** `le` orders any two rows one way or the other. */
  ghost predicate Total<R(!new)>(le: (R, R) -> bool) {
    forall a: R, b: R :: le(a, b) || le(b, a)
  }

  /** Each row is in order with the next one. */
  ghost predicate Sorted<R>(s: seq<R>, le: (R, R) -> bool) {
    forall i :: 0 < i < |s| ==> le(s[i - 1], s[i])
  }

  /** No two keys hold the same row (rows carry their own primary key). */
  ghost predicate Injective<R>(table: map<Id, R>) {
    forall a, b :: a in table && b in table && a != b ==> table[a] != table[b]
  }

  /** The rows a `where` condition selects among the given keys, as a set. */
  ghost function Rows<R>(table: map<Id, R>, keep: R -> bool, keys: set<Id>): set<R> {
    set k | k in keys && k in table && keep(table[k]) :: table[k]
  }

  /** Scanning one more key adds its row when it is selected, and that row is new. */
  lemma RowsStep<R>(table: map<Id, R>, keep: R -> bool, keys: set<Id>, k: Id)
    requires Injective(table) && k in table && k !in keys
    ensures table[k] !in Rows(table, keep, keys)
    ensures Rows(table, keep, keys + {k}) == Rows(table, keep, keys) + (if keep(table[k]) then {table[k]} else {})
  {
  }

  /** Puts `x` in front of the first row it may precede. */
  function Insert<R(!new)>(s: seq<R>, x: R, le: (R, R) -> bool): (r: seq<R>)
    ensures multiset(r) == multiset(s) + multiset{x}
    ensures r[0] == x || (|s| > 0 && r[0] == s[0])
    ensures Total(le) && Sorted(s, le) ==> Sorted(r, le)
    decreases |s|
  {
    if s == [] || le(x, s[0]) then
      [x] + s
    else
      var rest := Insert(s[1..], x, le);
      assert s == [s[0]] + s[1..];
      assert Total(le) && Sorted(s, le) ==> Sorted(rest, le) && le(s[0], rest[0]) by {
        if Total(le) && Sorted(s, le) {
          assert Sorted(s[1..], le);
          assert le(x, s[0]) || le(s[0], x);
        }
      }
      [s[0]] + rest
  }

  /** findAll({ where: keep, order: le }): every selected row exactly once, in order. */
  method Select<R(!new)>(table: map<Id, R>, keep: R -> bool, le: (R, R) -> bool) returns (rows: seq<R>)
    requires Injective(table)
    requires Total(le)
    ensures multiset(rows) == multiset(Rows(table, keep, table.Keys))
    ensures Sorted(rows, le)
    ensures forall i, j :: 0 <= i < j < |rows| ==> rows[i] != rows[j]
  {
    rows := [];
    var pending := table.Keys;
    while pending != {}
      invariant pending <= table.Keys
      invariant Sorted(rows, le)
      invariant multiset(rows) == multiset(Rows(table, keep, table.Keys - pending))
      decreases pending
    {
      var k :| k in pending;
      RowsStep(table, keep, table.Keys - pending, k);
      assert table.Keys - (pending - {k}) == (table.Keys - pending) + {k};
      if keep(table[k]) {
        rows := Insert(rows, table[k], le);
      }
      pending := pending - {k};
    }
    forall i, j | 0 <= i < j < |rows|
      ensures rows[i] != rows[j]
    {
      RepeatCountsTwice(rows, i, j);
    }
  }

  /** A row that occurs at two positions occurs at least twice. */
  lemma RepeatCountsTwice<R>(s: seq<R>, i: int, j: int)
    requires 0 <= i < j < |s|
    ensures s[i] == s[j] ==> multiset(s)[s[i]] >= 2
  {
    assert s == s[..j] + s[j..];
    assert s[..j][i] == s[i] && s[j..][0] == s[j];
    assert s[i] in multiset(s[..j]);
    assert s[j] in multiset(s[j..]);
  }

  /** destroy({ where: drop }): the table without the rows `drop` selects;
      every other row stays, unchanged. */
  function DeleteWhere<R>(table: map<Id, R>, drop: R -> bool): (r: map<Id, R>)
    ensures forall k :: k in r <==> k in table && !drop(table[k])
    ensures forall k :: k in r ==> r[k] == table[k]
  {
    map k | k in table && !drop(table[k]) :: table[k]
  }

  /** `b` keeps the elements of `a` in their order, possibly with others between. */
  predicate IsSubsequence<T(==)>(a: seq<T>, b: seq<T>)
    decreases |b|
  {
    a == [] || (b != [] && ((a[0] == b[0] && IsSubsequence(a[1..], b[1..])) || IsSubsequence(a, b[1..])))
  }

  /** Array.prototype.filter. */
  function Filter<T(==,!new)>(s: seq<T>, keep: T -> bool): (r: seq<T>)
    ensures forall x :: x in r <==> x in s && keep(x)
    ensures forall x :: multiset(r)[x] == if keep(x) then multiset(s)[x] else 0
    ensures IsSubsequence(r, s)
    ensures (forall i :: 0 <= i < |s| ==> keep(s[i])) ==> r == s
    ensures (forall i :: 0 <= i < |s| ==> !keep(s[i])) ==> r == []
    decreases |s|
  {
    if s == [] then []
    else
      var rest := Filter(s[1..], keep);
      assert s == [s[0]] + s[1..];
      assert multiset(s) == multiset{s[0]} + multiset(s[1..]);
      if keep(s[0]) then
        assert ([s[0]] + rest)[1..] == rest;
        assert multiset([s[0]] + rest) == multiset{s[0]} + multiset(rest);
        [s[0]] + rest
      else
        rest
  }

  /** Array.prototype.find: the first element that passes, if any. */
  function Find<T>(s: seq<T>, test: T -> bool): (found: Option<T>)
    ensures found.None? <==> forall i :: 0 <= i < |s| ==> !test(s[i])
    ensures found.Some? ==> exists i :: 0 <= i < |s| && s[i] == found.value && test(s[i]) &&
                                        (forall j :: 0 <= j < i ==> !test(s[j]))
    decreases |s|
  {
    if s == [] then None
    else if test(s[0]) then Some(s[0])
    else
      var rest := Find(s[1..], test);
      if rest.Some? then
        ghost var i :| 0 <= i < |s[1..]| && s[1..][i] == rest.value && test(s[1..][i]) &&
                      (forall j :: 0 <= j < i ==> !test(s[1..][j]));
        assert s[i + 1] == rest.value;
        rest
      else
        assert forall i :: 1 <= i < |s| ==> s[i] == s[1..][i - 1];
        rest
  }
}

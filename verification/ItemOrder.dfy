/** The order `(created_at, id)` in which items are listed (app/repositories/item_repository.py:58-63).
    Ids are compared character by character. */
module ItemOrder {

  datatype Key = Key(createdAt: int, id: string)

  predicate IdLess(a: string, b: string) {
    b != [] && (a == [] || a[0] < b[0] || (a[0] == b[0] && IdLess(a[1..], b[1..])))
  }

  lemma {:induction false} IdTrichotomy(a: string, b: string)
    ensures IdLess(a, b) || a == b || IdLess(b, a)
    ensures !(IdLess(a, b) && IdLess(b, a)) && !IdLess(a, a)
  {
    if a != [] {
      IdTrichotomy(a[1..], a[1..]);
    }
    if a != [] && b != [] && a[0] == b[0] {
      IdTrichotomy(a[1..], b[1..]);
      assert a == [a[0]] + a[1..] && b == [b[0]] + b[1..];
    }
  }

  lemma {:induction false} IdTransitive(a: string, b: string, c: string)
    requires IdLess(a, b) && IdLess(b, c)
    ensures IdLess(a, c)
  {
    if a != [] && a[0] == b[0] == c[0] {
      IdTransitive(a[1..], b[1..], c[1..]);
    }
  }

  /** `a` is listed after `b`. */
  predicate Below(a: Key, b: Key) {
    a.createdAt < b.createdAt || (a.createdAt == b.createdAt && IdLess(a.id, b.id))
  }

  lemma BelowTrichotomy(a: Key, b: Key)
    ensures Below(a, b) || a == b || Below(b, a)
    ensures !(Below(a, b) && Below(b, a)) && !Below(a, a)
  {
    IdTrichotomy(a.id, b.id);
    IdTrichotomy(a.id, a.id);
  }

  lemma BelowTransitive(a: Key, b: Key, c: Key)
    requires Below(a, b) && Below(b, c)
    ensures Below(a, c)
  {
    if a.createdAt == b.createdAt == c.createdAt {
      IdTransitive(a.id, b.id, c.id);
    }
  }

  // ------------------------------------------------ the order, read off times and characters

  /** `a` comes before `b` in text order: they agree on `k` characters, and there `a` ends or has the smaller one. */
  ghost predicate SmallerAt(a: string, b: string, k: nat) {
    k <= |a| && k < |b| && a[..k] == b[..k] && (k == |a| || a[k] < b[k])
  }

  ghost predicate Smaller(a: string, b: string) {
    exists k: nat :: SmallerAt(a, b, k)
  }

  lemma {:induction false} IdLessMeans(a: string, b: string)
    ensures IdLess(a, b) <==> Smaller(a, b)
  {
    if IdLess(a, b) {
      if a == [] || a[0] < b[0] {
        assert SmallerAt(a, b, 0);
      } else {
        IdLessMeans(a[1..], b[1..]);
        var k: nat :| SmallerAt(a[1..], b[1..], k);
        assert a == [a[0]] + a[1..] && b == [b[0]] + b[1..];
        assert a[..k + 1] == [a[0]] + a[1..][..k] && b[..k + 1] == [b[0]] + b[1..][..k];
        assert SmallerAt(a, b, k + 1);
      }
    } else if k: nat :| SmallerAt(a, b, k) {
      SmallerIsLess(a, b, k);
    }
  }

  lemma {:induction false} SmallerIsLess(a: string, b: string, k: nat)
    requires SmallerAt(a, b, k)
    ensures IdLess(a, b)
    decreases k
  {
    if k > 0 {
      assert a[0] == a[..k][0] == b[..k][0] == b[0];
      assert a[1..][..k - 1] == a[..k][1..] == b[..k][1..] == b[1..][..k - 1];
      SmallerIsLess(a[1..], b[1..], k - 1);
    }
  }

  /** The row with the first time and id is listed before the other: it is newer, or as old with the greater id. */
  ghost predicate ListedBefore(time: int, id: string, otherTime: int, otherId: string) {
    time > otherTime || (time == otherTime && Smaller(otherId, id))
  }

  lemma BelowMeans(a: Key, b: Key)
    ensures Below(a, b) <==> ListedBefore(b.createdAt, b.id, a.createdAt, a.id)
  {
    IdLessMeans(a.id, b.id);
  }
}

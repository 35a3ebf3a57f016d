/** Conventions of the document store shared by every collection: the ids it
    hands out, stand-ins for the messages of two store errors, and the order in which it lists
    documents when a query names no `orderBy` (ascending by document id,
    compared character by character, so `limit(1)` yields the matching
    document with the least id). */
module DocumentIds {

  /** An id the store may hand out for a new document: never empty, never
      in use. */
  predicate FreshIn<T>(id: string, m: map<string, T>) {
    id != "" && id !in m
  }

  /** Stands for the store's message on an update of a missing document.
      The store's own message also names the document path; only the fixed
      part is kept here. */
  const NoDocumentToUpdate := "No document to update"

  /** Stands for the store's message on an empty document path (the closing
      sentence of that message). */
  const EmptyPathMessage := "Path must be a non-empty string"

  /** `a` sorts no later than `b`. */
  predicate IdLe(a: string, b: string)
    decreases |a|
  {
    |a| == 0 || (|b| > 0 && (a[0] < b[0] || (a[0] == b[0] && IdLe(a[1..], b[1..]))))
  }

  lemma {:induction false} IdLeTotal(a: string, b: string)
    ensures IdLe(a, b) || IdLe(b, a)
    decreases |a|
  {
    if |a| > 0 && |b| > 0 && a[0] == b[0] {
      IdLeTotal(a[1..], b[1..]);
    }
  }

  lemma {:induction false} IdLeAntisymmetric(a: string, b: string)
    requires IdLe(a, b) && IdLe(b, a)
    ensures a == b
    decreases |a|
  {
    if |a| > 0 {
      IdLeAntisymmetric(a[1..], b[1..]);
      assert a == [a[0]] + a[1..] && b == [b[0]] + b[1..];
    }
  }

  lemma {:induction false} IdLeTransitive(a: string, b: string, c: string)
    requires IdLe(a, b) && IdLe(b, c)
    ensures IdLe(a, c)
    decreases |a|
  {
    if |a| > 0 && a[0] == b[0] && b[0] == c[0] {
      IdLeTransitive(a[1..], b[1..], c[1..]);
    }
  }

  /** `m` is the least id of `ids`. */
  predicate IsLeastId(m: string, ids: set<string>) {
    m in ids && forall x :: x in ids ==> IdLe(m, x)
  }

  /** Every non-empty set of ids has exactly one least element. */
  lemma {:induction false} LeastIdExists(ids: set<string>)
    requires ids != {}
    ensures exists m :: IsLeastId(m, ids)
    ensures forall m, n :: IsLeastId(m, ids) && IsLeastId(n, ids) ==> m == n
    decreases ids
  {
    var x :| x in ids;
    if ids == {x} {
      assert IsLeastId(x, ids) by { IdLeTotal(x, x); }
    } else {
      LeastIdExists(ids - {x});
      var m :| IsLeastId(m, ids - {x});
      IdLeTotal(m, x);
      if IdLe(m, x) {
        assert IsLeastId(m, ids);
      } else {
        forall y | y in ids
          ensures IdLe(x, y)
        {
          if y != x {
            IdLeTransitive(x, m, y);
          } else {
            IdLeTotal(x, x);
          }
        }
        assert IsLeastId(x, ids);
      }
    }
    forall m, n | IsLeastId(m, ids) && IsLeastId(n, ids)
      ensures m == n
    {
      IdLeAntisymmetric(m, n);
    }
  }

  /** The least id of a non-empty set. */
  function LeastId(ids: set<string>): (m: string)
    requires ids != {}
    ensures IsLeastId(m, ids)
  {
    LeastIdExists(ids);
    var m :| IsLeastId(m, ids);
    m
  }
}

/** The order in which copies of one record supersede each other. */
module Ordering {
  import opened Rows

  /** Text collates character by character, a prefix before its extensions. */
  predicate TextBefore(a: string, b: string) {
    if b == "" then false
    else if a == "" then true
    else a[0] < b[0] || (a[0] == b[0] && TextBefore(a[1..], b[1..]))
  }

  /** The two texts agree on `k` characters, and there the first ends or has the smaller one. */
  ghost predicate DifferAt(a: string, b: string, k: nat) {
    k <= |a| && k < |b| && a[..k] == b[..k] && (k == |a| || a[k] < b[k])
  }

  lemma {:induction false} TextOrderIs(a: string, b: string)
    ensures TextBefore(a, b) <==> exists k: nat :: DifferAt(a, b, k)
  {
    if a == "" && b != "" {
      assert DifferAt(a, b, 0);
    } else if b != "" {
      TextOrderIs(a[1..], b[1..]);
      if a[0] < b[0] {
        assert DifferAt(a, b, 0);
      }
      if a[0] == b[0] && exists k: nat :: DifferAt(a[1..], b[1..], k) {
        var k: nat :| DifferAt(a[1..], b[1..], k);
        assert a[..k + 1] == [a[0]] + a[1..][..k] && b[..k + 1] == [b[0]] + b[1..][..k];
        assert DifferAt(a, b, k + 1);
      }
      if k: nat :| DifferAt(a, b, k) {
        if k > 0 {
          assert a[0] == a[..k][0] == b[..k][0] == b[0];
          assert a[1..][..k - 1] == a[..k][1..] && b[1..][..k - 1] == b[..k][1..];
          assert DifferAt(a[1..], b[1..], k - 1);
        }
      }
    }
  }

  lemma {:induction false} TextTotal(a: string, b: string)
    ensures TextBefore(a, b) || TextBefore(b, a) || a == b
    ensures !(TextBefore(a, b) && TextBefore(b, a)) && !TextBefore(a, a)
  {
    if a != "" && b != "" {
      TextTotal(a[1..], b[1..]);
      if a[0] == b[0] && a[1..] == b[1..] {
        assert a == [a[0]] + a[1..] == b;
      }
    }
    TextIrreflexive(a);
  }

  lemma {:induction false} TextIrreflexive(a: string)
    ensures !TextBefore(a, a)
  {
    if a != "" {
      TextIrreflexive(a[1..]);
    }
  }

  lemma {:induction false} TextTransitive(a: string, b: string, c: string)
    requires TextBefore(a, b) && TextBefore(b, c)
    ensures TextBefore(a, c)
  {
    if a != "" && a[0] == b[0] == c[0] {
      TextTransitive(a[1..], b[1..], c[1..]);
    }
  }

  /** `ORDER BY ingested_at DESC, source_record_id DESC`: `a` ranks ahead of `b`. */
  predicate Newer(a: Row, b: Row) {
    a.ingestedAt > b.ingestedAt || (a.ingestedAt == b.ingestedAt && TextBefore(b.recordId, a.recordId))
  }

  lemma NewerOrder(a: Row, b: Row, c: Row)
    ensures !Newer(a, a) && !(Newer(a, b) && Newer(b, a))
    ensures Newer(a, b) && Newer(b, c) ==> Newer(a, c)
    ensures !Newer(a, b) && !Newer(b, c) ==> !Newer(a, c)
  {
    TextTotal(a.recordId, b.recordId);
    TextTotal(b.recordId, c.recordId);
    TextTotal(a.recordId, c.recordId);
    TextIrreflexive(a.recordId);
    if TextBefore(c.recordId, b.recordId) && TextBefore(b.recordId, a.recordId) {
      TextTransitive(c.recordId, b.recordId, a.recordId);
    }
    if TextBefore(c.recordId, a.recordId) {
      if TextBefore(a.recordId, b.recordId) {
        TextTransitive(c.recordId, a.recordId, b.recordId);
      }
    }
  }
}

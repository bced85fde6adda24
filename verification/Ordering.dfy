/** The listing order of the task store. */
module Ordering {
  // Newest stamp first, ties broken by descending task ID.

  /** `strings.Compare(a, b) < 0`: lexicographic, a proper prefix is smaller. */
  predicate TextLess(a: string, b: string) {
    if b == "" then false
    else if a == "" then true
    else if a[0] != b[0] then a[0] < b[0]
    else TextLess(a[1..], b[1..])
  }

  lemma {:induction false} TextLessTotal(a: string, b: string)
    ensures TextLess(a, b) || TextLess(b, a) || a == b
    ensures !(TextLess(a, b) && TextLess(b, a))
    ensures !TextLess(a, a)
  {
    if a != "" {
      TextLessTotal(a[1..], if b == "" then "" else b[1..]);
      assert a == [a[0]] + a[1..];
      if b != "" {
        assert b == [b[0]] + b[1..];
      }
    }
  }

  lemma {:induction false} TextLessTransitive(a: string, b: string, c: string)
    requires TextLess(a, b) && TextLess(b, c)
    ensures TextLess(a, c)
  {
    if a != "" && a[0] == b[0] == c[0] {
      TextLessTransitive(a[1..], b[1..], c[1..]);
    }
  }

  /** The texts part at a place: there the first ends or has the smaller character. */
  ghost predicate PartsAt(a: string, b: string, k: nat) {
    && k <= |a| && k < |b| && a[..k] == b[..k]
    && (k == |a| || a[k] < b[k])
  }

  lemma {:induction false} TextLessParts(a: string, b: string)
    ensures TextLess(a, b) <==> exists k: nat :: PartsAt(a, b, k)
  {
    if a == "" {
      assert b != "" ==> PartsAt(a, b, 0);
    } else if b != "" && a[0] != b[0] {
      assert a[0] < b[0] ==> PartsAt(a, b, 0);
      assert forall k: nat :: k > 0 && PartsAt(a, b, k) ==> a[..k][0] == b[..k][0];
    } else if b != "" {
      TextLessParts(a[1..], b[1..]);
      forall k: nat | PartsAt(a[1..], b[1..], k) ensures PartsAt(a, b, k + 1) {
        assert a[..k + 1] == [a[0]] + a[1..][..k] && b[..k + 1] == [b[0]] + b[1..][..k];
      }
      forall k: nat | PartsAt(a, b, k) ensures k > 0 && PartsAt(a[1..], b[1..], k - 1) {
        assert a[1..][..k - 1] == a[..k][1..] && b[1..][..k - 1] == b[..k][1..];
      }
    }
  }

  /** Where an entry sits in a listing: its stamp and its task ID. */
  datatype Position = Position(when: int, id: string)

  /** `p` is listed strictly before `q`. */
  predicate Before(p: Position, q: Position) {
    p.when > q.when || (p.when == q.when && TextLess(q.id, p.id))
  }

  lemma BeforeTotal(p: Position, q: Position)
    ensures Before(p, q) || Before(q, p) || p == q
    ensures !(Before(p, q) && Before(q, p))
    ensures !Before(p, p)
  {
    TextLessTotal(p.id, q.id);
  }

  /** Newest first, and among entries of the same stamp the larger task ID first. */
  lemma NewestFirstThenLargerId(p: Position, q: Position)
    ensures Before(p, q) <==> p.when > q.when || (p.when == q.when && exists k: nat :: PartsAt(q.id, p.id, k))
  {
    TextLessParts(q.id, p.id);
  }

  lemma BeforeTransitive(p: Position, q: Position, r: Position)
    requires Before(p, q) && Before(q, r)
    ensures Before(p, r)
  {
    if p.when == q.when == r.when {
      TextLessTransitive(r.id, q.id, p.id);
    }
  }

  /** `p` is at `q` or listed before it. */
  predicate AtOrBefore(p: Position, q: Position) {
    !Before(q, p)
  }

  lemma AtOrBeforeTransitive(p: Position, q: Position, r: Position)
    requires AtOrBefore(p, q) && AtOrBefore(q, r)
    ensures AtOrBefore(p, r)
  {
    BeforeTotal(p, q);
    BeforeTotal(q, r);
    if Before(p, q) && Before(q, r) {
      BeforeTransitive(p, q, r);
    }
    BeforeTotal(p, r);
  }

  /** A newer stamp for the same task never moves it towards the end of the listing. */
  lemma RestampMovesForward(id: string, t: int, t': int)
    requires t <= t'
    ensures AtOrBefore(Position(t', id), Position(t, id))
  {
    TextLessTotal(id, id);
  }
}

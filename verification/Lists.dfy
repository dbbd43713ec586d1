/** Optional values, and sequences in which nothing occurs twice. */
module Lists {

  datatype Option<+T> = None | Some(value: T)

  predicate NoDup(q: seq<nat>) {
    forall i, j | 0 <= i < j < |q| :: q[i] != q[j]
  }

  function Without<T>(s: seq<T>, i: nat): (r: seq<T>)
    requires i < |s|
    ensures |r| == |s| - 1
    ensures forall k: nat | k < |r| :: r[k] == s[if k < i then k else k + 1]
  {
    s[..i] + s[i + 1..]
  }

  /** `q` without the first occurrence of `f`. */
  function Remove(q: seq<nat>, f: nat): seq<nat> {
    if |q| == 0 then []
    else if q[0] == f then q[1..]
    else [q[0]] + Remove(q[1..], f)
  }

  lemma {:induction false} RemoveOne(q: seq<nat>, f: nat)
    requires NoDup(q)
    ensures NoDup(Remove(q, f))
    ensures forall g: nat :: g in Remove(q, f) <==> g in q && g != f
  {
    if |q| > 0 {
      var r := q[1..];
      assert NoDup(r) && q[0] !in r;
      assert forall g: nat :: g in q <==> g == q[0] || g in r;
      if q[0] != f {
        RemoveOne(r, f);
        var r' := Remove(r, f);
        assert q[0] !in r';
      }
    }
  }

  /** Removing by name is removing by position, as no name occurs twice. */
  lemma {:induction false} RemoveByName(q: seq<nat>, i: nat)
    requires NoDup(q) && i < |q|
    ensures Remove(q, q[i]) == q[..i] + q[i + 1..]
  {
    if i > 0 {
      var r := q[1..];
      assert NoDup(r) && r[i - 1] == q[i] && q[0] != q[i];
      RemoveByName(r, i - 1);
      assert r[..i - 1] == q[1..i] && r[i..] == q[i + 1..];
      assert [q[0]] + q[1..i] == q[..i];
      assert [q[0]] + (q[1..i] + q[i + 1..]) == q[..i] + q[i + 1..];
    }
  }
}

/** The array filters the reducers use, on sequences of identifiers. */
module Lists {
  import opened Text

  /** `xs.filter(x => x !== id)`. */
  function Remove(xs: seq<string>, id: string): (r: seq<string>)
    ensures id !in r
    ensures forall x :: x != id ==> (x in r <==> x in xs)
    ensures |r| <= |xs|
  {
    if xs == [] then []
    else if xs[0] == id then Remove(xs[1..], id)
    else [xs[0]] + Remove(xs[1..], id)
  }

  /** Number of occurrences of `id` in `xs`. */
  function Count(xs: seq<string>, id: string): (n: nat)
    ensures n == 0 <==> id !in xs
    ensures n <= |xs|
  {
    if xs == [] then 0
    else (if xs[0] == id then 1 else 0) + Count(xs[1..], id)
  }

  /** `xs.filter(x => !x.includes(sub))`. */
  function RemoveIncluding(xs: seq<string>, sub: string): (r: seq<string>)
    ensures forall x :: x in r <==> x in xs && !Includes(x, sub)
    ensures |r| <= |xs|
  {
    if xs == [] then []
    else if Includes(xs[0], sub) then RemoveIncluding(xs[1..], sub)
    else [xs[0]] + RemoveIncluding(xs[1..], sub)
  }

  lemma {:induction false} RemoveAppend(a: seq<string>, b: seq<string>, id: string)
    ensures Remove(a + b, id) == Remove(a, id) + Remove(b, id)
  {
    if a != [] {
      assert (a + b)[1..] == a[1..] + b;
      RemoveAppend(a[1..], b, id);
    } else {
      assert a + b == b;
    }
  }

  /** Removing an identifier that is absent changes nothing. */
  lemma {:induction false} RemoveAbsent(xs: seq<string>, id: string)
    requires id !in xs
    ensures Remove(xs, id) == xs
  {
    if xs != [] {
      RemoveAbsent(xs[1..], id);
    }
  }

  lemma {:induction false} RemoveIncludingAppend(a: seq<string>, b: seq<string>, sub: string)
    ensures RemoveIncluding(a + b, sub) == RemoveIncluding(a, sub) + RemoveIncluding(b, sub)
  {
    if a != [] {
      assert (a + b)[1..] == a[1..] + b;
      RemoveIncludingAppend(a[1..], b, sub);
    } else {
      assert a + b == b;
    }
  }

  /** A sequence with nothing containing `sub` passes the filter untouched. */
  lemma {:induction false} RemoveIncludingNone(xs: seq<string>, sub: string)
    requires forall x :: x in xs ==> !Includes(x, sub)
    ensures RemoveIncluding(xs, sub) == xs
  {
    if xs != [] {
      RemoveIncludingNone(xs[1..], sub);
    }
  }

  /** Copies of an identifier in a concatenation add up. */
  lemma {:induction false} CountAppend(a: seq<string>, b: seq<string>, id: string)
    ensures Count(a + b, id) == Count(a, id) + Count(b, id)
  {
    if a != [] {
      assert (a + b)[1..] == a[1..] + b;
      CountAppend(a[1..], b, id);
    } else {
      assert a + b == b;
    }
  }

  /** The substring filter keeps every copy of an identifier that does not contain `sub`. */
  lemma {:induction false} CountRemoveIncluding(xs: seq<string>, sub: string, id: string)
    requires !Includes(id, sub)
    ensures Count(RemoveIncluding(xs, sub), id) == Count(xs, id)
  {
    if xs != [] {
      CountRemoveIncluding(xs[1..], sub, id);
    }
  }
}

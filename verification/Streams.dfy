/** First-in first-out runs compose: what went in before what is left came out in the same order. */
module Streams {

  lemma Compose<T>(a: seq<T>, i: seq<T>, later: seq<T>, o: seq<T>, b: seq<T>, rest: seq<T>, c: seq<T>)
    requires a + i == o + b && b + later == rest + c
    ensures a + (i + later) == (o + rest) + c
  {
    assert a + (i + later) == (a + i) + later;
    assert (o + b) + later == o + (b + later);
    assert o + (rest + c) == (o + rest) + c;
  }
}

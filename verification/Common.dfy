/** What several modules share. */
module Common {

  datatype Option<T> = None | Some(value: T)

  ghost function AnyOf<T>(s: set<T>): (x: T)
    requires s != {}
    ensures x in s
  {
    var x :| x in s;
    x
  }

  lemma SubsetSize<T>(a: set<T>, b: set<T>)
    requires a <= b
    ensures |a| <= |b|
    ensures |a| == |b| ==> a == b
  {
    assert b == a + (b - a);
  }

  /** One more entry on a list where a condition holds. */
  function When<T>(list: seq<T>, condition: bool, entry: T): (r: seq<T>)
    ensures r == [] <==> list == [] && !condition
  {
    if condition then list + [entry] else list
  }
}

// Choosing from a set.
module Sets {
  ghost function Pick<T>(s: set<T>): (k: T)
    requires s != {}
    ensures k in s
  {
    var k :| k in s; k
  }
}

/**
 The process-wide async-id generator, seen sequentially. Its implementation is
 not part of this model; what the factory relies on is that every draw returns
 an id strictly greater than the generator's last id. On a consistent generator
 (one whose record is increasing and bounded by its last id) that makes the new
 id larger than every id issued before it.
 */
module AsyncIdGenerator {

  /** The generator's state: the last id it handed out, and every id it issued, in order. */
  datatype Generator = Generator(last: int, issued: seq<int>)

  /** One draw: the id returned and the generator's state afterwards. */
  datatype Draw = Draw(id: int, next: Generator)

  /**
   `nextAsyncId()`: returns an id larger than the generator's last id, and
   records exactly that one id as issued.
   */
  function NextAsyncId(g: Generator): (d: Draw)
    ensures d.id > g.last
    ensures d.next == Generator(d.id, g.issued + [d.id])
  {
    var id := g.last + 1;
    Draw(id, Generator(id, g.issued + [id]))
  }

  /** Ids in issuance order, each larger than all the ones before it. */
  predicate StrictlyIncreasing(ids: seq<int>) {
    forall i, j :: 0 <= i < j < |ids| ==> ids[i] < ids[j]
  }

  /** No id occurs twice. */
  predicate PairwiseDistinct(ids: seq<int>) {
    forall i, j :: 0 <= i < |ids| && 0 <= j < |ids| && i != j ==> ids[i] != ids[j]
  }

  /** The generator's record is increasing and no id in it exceeds its last id. */
  ghost predicate Consistent(g: Generator) {
    && StrictlyIncreasing(g.issued)
    && forall k :: 0 <= k < |g.issued| ==> g.issued[k] <= g.last
  }

  /** Issuing an id above the last one keeps the generator consistent. */
  lemma IssueKeepsConsistent(g: Generator, id: int)
    requires Consistent(g)
    requires id > g.last
    ensures Consistent(Generator(id, g.issued + [id]))
  {
  }

  /**
   On a consistent generator, a draw returns an id larger than every id issued
   before it, so it is not a duplicate, and the generator stays consistent.
   */
  lemma NextAsyncIdIsFresh(g: Generator)
    requires Consistent(g)
    ensures forall k :: 0 <= k < |g.issued| ==> g.issued[k] < NextAsyncId(g).id
    ensures NextAsyncId(g).id !in g.issued
    ensures Consistent(NextAsyncId(g).next)
  {
  }
}

/**
  The index arithmetic of the `portfolio` route (app.py): one post is shown, the requested
  index is clamped into range, and the previous and next links wrap around.
 */
module Portfolio {
  import opened Options
  import opened NotionContent

  /** What the page template receives: the post and the two navigation indices. */
  datatype View = View(post: Post, prevIndex: int, nextIndex: int)

  const NoPosts := Post("No Posts Found", "Jacob has not just posted anything as of yet")

  /** `max(0, min(requested, count - 1))`. */
  function ShownIndex(count: nat, requested: int): (i: nat)
    requires count > 0
    ensures i < count
    ensures 0 <= requested < count ==> i == requested
    ensures requested < 0 ==> i == 0
    ensures requested >= count ==> i == count - 1
  {
    var upper := if requested < count - 1 then requested else count - 1;
    if upper < 0 then 0 else upper
  }

  /**
    Python's `a % n` for `n > 0`: floored, never negative. Dafny's `%` is Euclidean, and the
    two agree when the divisor is positive.
   */
  function PyMod(a: int, n: int): (r: int)
    requires n > 0
    ensures 0 <= r < n
    ensures exists q: int :: a == q * n + r
  {
    var r := a % n;
    assert a == (a / n) * n + r;
    r
  }

  /** `(index - 1) % len(posts)`. */
  function PrevIndex(i: nat, count: nat): (p: nat)
    requires i < count
    ensures p < count
    ensures i > 0 ==> p == i - 1
    ensures i == 0 ==> p == count - 1
  {
    ModShift(i - 1, count);
    PyMod(i - 1, count)
  }

  /** `(index + 1) % len(posts)`. */
  function NextIndex(i: nat, count: nat): (q: nat)
    requires i < count
    ensures q < count
    ensures i < count - 1 ==> q == i + 1
    ensures i == count - 1 ==> q == 0
  {
    ModShift(i + 1, count);
    PyMod(i + 1, count)
  }

  /** The remainder of a number one step outside `[0, n)`. */
  lemma ModShift(a: int, n: int)
    requires n > 0 && -1 <= a <= n
    ensures 0 <= a < n ==> a % n == a
    ensures a == -1 ==> a % n == n - 1
    ensures a == n ==> a % n == 0
  {
    if a == -1 {
      assert a == (-1) * n + (n - 1);
    } else if a == n {
      assert a == 1 * n + 0;
    }
  }

  /** Following "next" then "previous", or the reverse, comes back to the shown post. */
  lemma NavigationInverse(i: nat, count: nat)
    requires i < count
    ensures PrevIndex(NextIndex(i, count), count) == i
    ensures NextIndex(PrevIndex(i, count), count) == i
  {
  }

  /** After `steps <= count` clicks on "next" the index has moved `steps` places, wrapping once. */
  lemma {:induction false} IterateShift(i: nat, count: nat, steps: nat)
    requires i < count && steps <= count
    ensures Iterate(i, count, steps) == if i + steps < count then i + steps else i + steps - count
  {
    if steps > 0 {
      IterateShift(i, count, steps - 1);
    }
  }

  /** The "next" links form a single cycle through all posts: `count` clicks, and no fewer, return. */
  lemma NextCycle(i: nat, count: nat, steps: nat)
    requires i < count && 0 < steps <= count
    ensures Iterate(i, count, steps) == i <==> steps == count
  {
    IterateShift(i, count, steps);
  }

  /** The index reached after following "next" `steps` times. */
  function Iterate(i: nat, count: nat, steps: nat): (j: nat)
    requires i < count
    ensures j < count
  {
    if steps == 0 then i else NextIndex(Iterate(i, count, steps - 1), count)
  }

  /** The view for the assembled posts and the `index` query parameter (absent reads as 0). */
  function Portfolio(posts: seq<Post>, requested: Option<int>): (v: View)
    ensures posts == [] ==> v == View(NoPosts, 0, 0)
    ensures posts != [] ==> 0 <= v.prevIndex < |posts| && 0 <= v.nextIndex < |posts|
    ensures posts != [] ==>
              var i := ShownIndex(|posts|, requested.GetOr(0));
              v == View(posts[i], PrevIndex(i, |posts|), NextIndex(i, |posts|))
  {
    if posts == [] then View(NoPosts, 0, 0)
    else
      var i := ShownIndex(|posts|, requested.GetOr(0));
      View(posts[i], PyMod(i - 1, |posts|), PyMod(i + 1, |posts|))
  }

  /** With at least one post the shown post is always one of them: out-of-range requests clamp. */
  lemma ShownPostExists(posts: seq<Post>, requested: Option<int>)
    requires posts != []
    ensures Portfolio(posts, requested).post in posts
    ensures requested.GetOr(0) < 0 ==> Portfolio(posts, requested).post == posts[0]
    ensures requested.GetOr(0) >= |posts| ==> Portfolio(posts, requested).post == posts[|posts| - 1]
  {
  }
}

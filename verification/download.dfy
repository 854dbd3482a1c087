/** The download retry loop shared by both image nodes: up to three
    attempts, stopping at the first response with status 200 whose body
    opens as a picture. A request that raises, a non-200 status and a body
    that does not open are all failed attempts. */
module Download {

  import opened Base

  /** A decoded picture; its conversion to a tensor is not modelled. */
  datatype Image = Image(pixels: seq<int>)

  /** The outcome of one request: a response with its status and, when its
      body opens as a picture, that picture; or an exception. */
  datatype Fetch = Response(status: int, picture: Option<Image>) | Failed

  const MaxAttempts: nat := 3

  predicate Succeeds(f: Fetch)
  {
    f.Response? && f.status == 200 && f.picture.Some?
  }

  /** The number of attempts made for entry `j`, counting from attempt `i`:
      the first successful attempt, or the last one. `fetch(j, i)` is the
      outcome of attempt `i` (1-based) for entry `j`. */
  function AttemptsFrom(fetch: (nat, nat) -> Fetch, j: nat, i: nat): (n: nat)
    requires 1 <= i <= MaxAttempts
    ensures i <= n <= MaxAttempts
    ensures forall k :: i <= k < n ==> !Succeeds(fetch(j, k))
    ensures n < MaxAttempts ==> Succeeds(fetch(j, n))
    decreases MaxAttempts - i
  {
    if i == MaxAttempts || Succeeds(fetch(j, i)) then i else AttemptsFrom(fetch, j, i + 1)
  }

  function Attempts(fetch: (nat, nat) -> Fetch, j: nat): (n: nat)
    ensures 1 <= n <= MaxAttempts
  {
    AttemptsFrom(fetch, j, 1)
  }

  /** The number of attempts is fixed by the first success. */
  lemma {:induction false} AttemptsAt(fetch: (nat, nat) -> Fetch, j: nat, i: nat, n: nat)
    requires 1 <= i <= n <= MaxAttempts
    requires forall k :: i <= k < n ==> !Succeeds(fetch(j, k))
    requires n < MaxAttempts ==> Succeeds(fetch(j, n))
    ensures AttemptsFrom(fetch, j, i) == n
    decreases n - i
  {
    if i < n {
      AttemptsAt(fetch, j, i + 1, n);
    }
  }

  /** The picture the loop ends with, if any. */
  function Downloaded(fetch: (nat, nat) -> Fetch, j: nat): Option<Image>
  {
    var n := Attempts(fetch, j);
    if Succeeds(fetch(j, n)) then Some(fetch(j, n).picture.value) else None
  }

  /** The requests the loop issues for entry `j`: attempts `lo` .. `hi - 1`. */
  function Tries(j: nat, lo: nat, hi: nat): (r: seq<(nat, nat)>)
    requires lo <= hi
    ensures |r| == hi - lo
    ensures forall k :: 0 <= k < |r| ==> r[k].0 == j && r[k].1 == lo + k
    decreases hi - lo
  {
    if lo == hi then [] else [(j, lo)] + Tries(j, lo + 1, hi)
  }

  /** One more attempt extends the requests by that attempt. */
  lemma TriesSnoc(j: nat, lo: nat, hi: nat)
    requires lo <= hi
    ensures Tries(j, lo, hi) + [(j, hi)] == Tries(j, lo, hi + 1)
  {
  }

  /** A picture is obtained exactly when one of the three attempts would
      succeed, and it is the picture of the first such attempt. */
  lemma DownloadedIffSomeAttemptSucceeds(fetch: (nat, nat) -> Fetch, j: nat)
    ensures Downloaded(fetch, j).Some? <==> exists k :: 1 <= k <= MaxAttempts && Succeeds(fetch(j, k))
    ensures Downloaded(fetch, j).Some? ==>
      exists k :: 1 <= k <= MaxAttempts && Succeeds(fetch(j, k))
        && (forall k' :: 1 <= k' < k ==> !Succeeds(fetch(j, k')))
        && Downloaded(fetch, j) == Some(fetch(j, k).picture.value)
  {
    var n := Attempts(fetch, j);
    if exists k :: 1 <= k <= MaxAttempts && Succeeds(fetch(j, k)) {
      var k :| 1 <= k <= MaxAttempts && Succeeds(fetch(j, k));
      assert n <= k;
    }
  }
}

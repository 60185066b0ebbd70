/** The batched page walk that sends a notification to every account. */
module Notifications {

  const MAX_QUOTA_DEVICE_TOKEN: nat := 1000
  const MAX_CONNECTION_POOL: nat := 5

  /** Whether `findMany`, skipping and taking a page's worth, returns the account at position j for page i. */
  predicate InPage(total: nat, i: nat, j: nat)
  {
    MAX_QUOTA_DEVICE_TOKEN * i <= j < MAX_QUOTA_DEVICE_TOKEN * i + MAX_QUOTA_DEVICE_TOKEN && j < total
  }

  /** How many times the pages return the account at position j. */
  function Times(total: nat, pages: seq<nat>, j: nat): nat
  {
    if pages == [] then 0 else (if InPage(total, pages[0], j) then 1 else 0) + Times(total, pages[1..], j)
  }

  /** n, n - 1, ..., 0 */
  function CountDown(n: int): seq<nat>
    decreases n + 1
  {
    if n < 0 then [] else [n as nat] + CountDown(n - 1)
  }

  function Flatten(batches: seq<seq<nat>>): seq<nat>
  {
    if batches == [] then [] else Flatten(batches[..|batches| - 1]) + batches[|batches| - 1]
  }

  lemma FlattenOneMore(batches: seq<seq<nat>>, batch: seq<nat>)
    ensures Flatten(batches + [batch]) == Flatten(batches) + batch
  {
    assert (batches + [batch])[..|batches|] == batches;
  }

  lemma {:induction false} CountDownCovers(total: nat, n: int, j: nat)
    requires n >= -1
    ensures Times(total, CountDown(n), j) == if j < total && j < MAX_QUOTA_DEVICE_TOKEN * (n + 1) then 1 else 0
    decreases n + 1
  {
    if n >= 0 {
      CountDownCovers(total, n - 1, j);
      assert CountDown(n)[1..] == CountDown(n - 1);
    }
  }

  /** For every number of accounts the pages visited return every account exactly once. */
  lemma EveryAccountOnce(total: nat, batches: seq<seq<nat>>, j: nat)
    requires Flatten(batches) == CountDown(total / MAX_QUOTA_DEVICE_TOKEN)
    ensures Times(total, Flatten(batches), j) == if j < total then 1 else 0
  {
    CountDownCovers(total, total / MAX_QUOTA_DEVICE_TOKEN, j);
  }

  /** The page indices of one batch: up to five, downwards, stopping at zero. */
  method GetQueryAccountByIndex(count: int) returns (output: seq<nat>)
    requires count >= 0
    ensures output + CountDown(count - 5) == CountDown(count)
    ensures |output| == if count < 5 then count + 1 else 5
    ensures forall i :: 0 <= i < |output| ==> output[i] == count - i
  {
    output := [];
    var i := count;
    while i > count - MAX_CONNECTION_POOL
      invariant count - MAX_CONNECTION_POOL <= i <= count
      invariant output + CountDown(i) == CountDown(count)
      invariant |output| == if i >= 0 then count - i else count + 1
      invariant forall k :: 0 <= k < |output| ==> output[k] == count - k
    {
      if i >= 0 {
        assert output + CountDown(i) == (output + [i as nat]) + CountDown(i - 1);
        output := output + [i as nat];
      }
      i := i - 1;
    }
  }

  /** The walk ends, in batches of at most five; its batches together count down every page once, and return every
      account exactly once. */
  method SendNotifications(total: nat) returns (batches: seq<seq<nat>>)
    ensures Flatten(batches) == CountDown(total / 1000)
    ensures forall b :: 0 <= b < |batches| ==> 1 <= |batches[b]| <= 5
    ensures forall j: nat :: Times(total, Flatten(batches), j) == if j < total then 1 else 0
  {
    var count: int := total / MAX_QUOTA_DEVICE_TOKEN;
    batches := [];
    ghost var pages := CountDown(count);
    var first := true;
    while first || count >= 0
      invariant first ==> count >= 0
      invariant Flatten(batches) + CountDown(count) == pages
      invariant forall b :: 0 <= b < |batches| ==> 1 <= |batches[b]| <= MAX_CONNECTION_POOL
      decreases count + MAX_CONNECTION_POOL
    {
      first := false;
      var output := GetQueryAccountByIndex(count);
      ghost var was := batches;
      batches := batches + [output];
      FlattenOneMore(was, output);
      assert Flatten(was) + (output + CountDown(count - 5)) == (Flatten(was) + output) + CountDown(count - 5);
      count := count - MAX_CONNECTION_POOL;
    }
    assert CountDown(count) == [];
    forall j: nat { EveryAccountOnce(total, batches, j); }
  }
}

/** The dispatch stage: every feed's link, including the empty link of a feed that
    matched nothing, is submitted to the download session. A failed submission is only
    logged: that feed keeps no handle and the loop goes on. The session is `submit`:
    `submit(i, link)` is its answer to the `i`-th submission, of `link`. */
module Dispatching {
  import opened Results
  import opened Config

  /** The links handed to the session, one per feed, in feed order. */
  function Submissions<M>(feeds: seq<Feed<M>>): (links: seq<string>)
    ensures |links| == |feeds|
    ensures forall i :: 0 <= i < |feeds| ==> links[i] == feeds[i].link
    decreases |feeds|
  {
    if feeds == [] then [] else [feeds[0].link] + Submissions(feeds[1..])
  }

  /** Records each feed's handle: present exactly when the session accepted that feed's
      own submission, and then the handle the session returned. */
  function Dispatch<M>(feeds: seq<Feed<M>>, submit: (nat, string) -> Result<Handle, string>): (r: seq<Feed<M>>)
    ensures |r| == |feeds|
    ensures forall i :: 0 <= i < |feeds| ==> (r[i].torr.Some? <==> submit(i, Submissions(feeds)[i]).Ok?)
    ensures forall i :: 0 <= i < |feeds| && submit(i, Submissions(feeds)[i]).Ok? ==>
      r[i].torr == Some(submit(i, Submissions(feeds)[i]).value)
    ensures forall i :: 0 <= i < |feeds| ==> r[i].(torr := feeds[i].torr) == feeds[i]
  {
    seq(|feeds|, i requires 0 <= i < |feeds| => feeds[i].(torr := submit(i, feeds[i].link).ToOption()))
  }

  /** A failed submission affects no other feed: changing the session's answer for one
      submission leaves every other feed's outcome as it was. */
  lemma DispatchIsolated<M>(feeds: seq<Feed<M>>, submit: (nat, string) -> Result<Handle, string>, submit': (nat, string) -> Result<Handle, string>, x: int)
    requires forall i :: 0 <= i < |feeds| && i != x ==> submit'(i, feeds[i].link) == submit(i, feeds[i].link)
    ensures forall i :: 0 <= i < |feeds| && i != x ==> Dispatch(feeds, submit')[i] == Dispatch(feeds, submit)[i]
  {
  }

  /** Feeds without a link are not skipped: when the session accepts the empty link, the
      feed holds a handle although nothing matched. */
  lemma EmptyLinkKeepsAcceptedHandle<M>(feeds: seq<Feed<M>>, submit: (nat, string) -> Result<Handle, string>, i: int)
    requires 0 <= i < |feeds| && feeds[i].link == "" && submit(i, "").Ok?
    ensures Dispatch(feeds, submit)[i].torr == Some(submit(i, "").value)
    ensures Dispatch(feeds, submit)[i].link == ""
  {
  }

  /** A handle implies a non-empty link only when the session rejects every empty link. */
  lemma HandleImpliesLinkWhenEmptyRejected<M>(feeds: seq<Feed<M>>, submit: (nat, string) -> Result<Handle, string>)
    requires forall i: nat :: submit(i, "").Err?
    ensures forall i :: 0 <= i < |feeds| && Dispatch(feeds, submit)[i].torr.Some? ==>
      Dispatch(feeds, submit)[i].link != ""
  {
  }
}

/** `LabelSync`: keeping a subscriber's Messenger custom labels in step with
    the labels assigned to them in the chatbot. */
module LabelSync {
  import opened Wrappers
  import opened GraphApi
  import CustomLabelsApi

  /** A chatbot label; `labelIds` maps a channel name to the label's id on
      that channel. */
  datatype Label = Label(labelIds: map<string, string>)

  /** The ids the labels carry on `channel`, in order; labels without an
      id on the channel, or with an empty one, are dropped. */
  function ChannelLabelIds(labels: seq<Label>, channel: string): (r: seq<string>)
    ensures |r| <= |labels|
    ensures forall k :: 0 <= k < |r| ==> r[k] != ""
    ensures forall id :: id in r <==>
      exists i :: 0 <= i < |labels| && channel in labels[i].labelIds &&
        labels[i].labelIds[channel] == id && id != ""
  {
    if labels == [] then []
    else
      var rest := ChannelLabelIds(labels[1..], channel);
      assert forall i :: 0 <= i < |labels[1..]| ==> labels[1..][i] == labels[i + 1];
      var ids := labels[0].labelIds;
      if channel in ids && ids[channel] != "" then [ids[channel]] + rest else rest
  }

  /** `map` then `filter` keeps the order: the ids of a concatenation are the
      ids of its parts, one after the other. */
  lemma {:induction false} ChannelLabelIdsAppend(a: seq<Label>, b: seq<Label>, channel: string)
    ensures ChannelLabelIds(a + b, channel) == ChannelLabelIds(a, channel) + ChannelLabelIds(b, channel)
    decreases |a|
  {
    if a == [] {
      assert a + b == b;
    } else {
      assert (a + b)[0] == a[0];
      assert (a + b)[1..] == a[1..] + b;
      ChannelLabelIdsAppend(a[1..], b, channel);
    }
  }

  /** The elements of `a` that are not in `b`, in the order of `a`. */
  function Difference(a: seq<string>, b: seq<string>): (r: seq<string>)
    ensures |r| <= |a|
    ensures forall x :: x in r <==> x in a && x !in b
  {
    if a == [] then []
    else if a[0] in b then Difference(a[1..], b)
    else [a[0]] + Difference(a[1..], b)
  }

  /** `filter` keeps the order: the difference of a concatenation is the
      concatenation of the differences. */
  lemma {:induction false} DifferenceAppend(a1: seq<string>, a2: seq<string>, b: seq<string>)
    ensures Difference(a1 + a2, b) == Difference(a1, b) + Difference(a2, b)
    decreases |a1|
  {
    if a1 == [] {
      assert a1 + a2 == a2;
    } else {
      assert (a1 + a2)[0] == a1[0];
      assert (a1 + a2)[1..] == a1[1..] + a2;
      DifferenceAppend(a1[1..], a2, b);
    }
  }

  function Elements(s: seq<string>): set<string> {
    set x | x in s
  }

  /** One request of a label sync. */
  datatype LabelOp = RemoveLabel(id: string) | AddLabel(id: string)

  function Removals(ids: seq<string>): (r: seq<LabelOp>)
    ensures |r| == |ids|
    ensures forall k :: 0 <= k < |r| ==> r[k] == RemoveLabel(ids[k])
  {
    seq(|ids|, k requires 0 <= k < |ids| => RemoveLabel(ids[k]))
  }

  function Additions(ids: seq<string>): (r: seq<LabelOp>)
    ensures |r| == |ids|
    ensures forall k :: 0 <= k < |r| ==> r[k] == AddLabel(ids[k])
  {
    seq(|ids|, k requires 0 <= k < |ids| => AddLabel(ids[k]))
  }

  /** `updateUserLabels`: a removal for every old id no longer wanted, then
      an addition for every new id not yet held. */
  function UpdateUserLabels(oldIds: seq<string>, newIds: seq<string>): (ops: seq<LabelOp>)
    ensures forall id :: RemoveLabel(id) in ops <==> id in oldIds && id !in newIds
    ensures forall id :: AddLabel(id) in ops <==> id in newIds && id !in oldIds
    ensures forall i, j :: 0 <= i < j < |ops| && ops[i].AddLabel? ==> ops[j].AddLabel?
  {
    var removed := Removals(Difference(oldIds, newIds));
    var added := Additions(Difference(newIds, oldIds));
    assert forall id :: RemoveLabel(id) in removed + added ==> RemoveLabel(id) in removed;
    assert forall id :: AddLabel(id) in removed + added ==> AddLabel(id) in added;
    removed + added
  }

  /** The label set a subscriber holds after the operations succeed. */
  function ApplyOps(held: set<string>, ops: seq<LabelOp>): set<string>
    decreases |ops|
  {
    if ops == [] then held
    else
      var next := match ops[0]
        case RemoveLabel(id) => held - {id}
        case AddLabel(id) => held + {id};
      ApplyOps(next, ops[1..])
  }

  lemma {:induction false} ApplyOpsAppend(held: set<string>, a: seq<LabelOp>, b: seq<LabelOp>)
    ensures ApplyOps(held, a + b) == ApplyOps(ApplyOps(held, a), b)
    decreases |a|
  {
    if a != [] {
      assert (a + b)[0] == a[0];
      assert (a + b)[1..] == a[1..] + b;
      var next := match a[0]
        case RemoveLabel(id) => held - {id}
        case AddLabel(id) => held + {id};
      ApplyOpsAppend(next, a[1..], b);
    } else {
      assert a + b == b;
    }
  }

  lemma {:induction false} ApplyRemovals(held: set<string>, ids: seq<string>)
    ensures ApplyOps(held, Removals(ids)) == held - Elements(ids)
    decreases |ids|
  {
    if ids != [] {
      assert Removals(ids)[1..] == Removals(ids[1..]);
      ApplyRemovals(held - {ids[0]}, ids[1..]);
      assert Elements(ids) == {ids[0]} + Elements(ids[1..]);
    }
  }

  lemma {:induction false} ApplyAdditions(held: set<string>, ids: seq<string>)
    ensures ApplyOps(held, Additions(ids)) == held + Elements(ids)
    decreases |ids|
  {
    if ids != [] {
      assert Additions(ids)[1..] == Additions(ids[1..]);
      ApplyAdditions(held + {ids[0]}, ids[1..]);
      assert Elements(ids) == {ids[0]} + Elements(ids[1..]);
    }
  }

  /** Once every request succeeds, whatever the subscriber held loses the
      old ids that are no longer wanted and gains the new ids not yet held;
      any other label they hold is left alone. */
  lemma SyncEffect(held: set<string>, oldIds: seq<string>, newIds: seq<string>)
    ensures ApplyOps(held, UpdateUserLabels(oldIds, newIds)) ==
      (held - (Elements(oldIds) - Elements(newIds))) + (Elements(newIds) - Elements(oldIds))
  {
    var gone := Difference(oldIds, newIds);
    var wanted := Difference(newIds, oldIds);
    ApplyOpsAppend(held, Removals(gone), Additions(wanted));
    ApplyRemovals(held, gone);
    ApplyAdditions(held - Elements(gone), wanted);
    assert Elements(gone) == Elements(oldIds) - Elements(newIds);
    assert Elements(wanted) == Elements(newIds) - Elements(oldIds);
  }

  /** Starting from the old channel ids, the subscriber ends up holding
      exactly the new ones. */
  lemma SyncReachesNewLabels(oldIds: seq<string>, newIds: seq<string>)
    ensures ApplyOps(Elements(oldIds), UpdateUserLabels(oldIds, newIds)) == Elements(newIds)
  {
    SyncEffect(Elements(oldIds), oldIds, newIds);
  }

  /** The request each operation becomes. */
  function OpRequest(api: Api, psid: string, op: LabelOp): (r: Result<Request>)
    ensures r.Ok? <==> psid != "" && op.id != "" && api.pageToken != ""
    ensures r.Ok? ==> r.value.uri == CustomLabelsApi.LabelsUri("/" + op.id + "/label")
    ensures r.Ok? ==> r.value.body == JsonBody(CustomLabelsApi.UserPayload(psid))
    ensures r.Ok? ==> r.value.verb == (if op.RemoveLabel? then "DELETE" else "POST")
  {
    match op
    case RemoveLabel(id) => CustomLabelsApi.RemovePsidFromCustomLabel(api, psid, id)
    case AddLabel(id) => CustomLabelsApi.AddPsidToCustomLabel(api, psid, id)
  }

  /** The requests of `updateUserLabels`, all issued together. */
  function SyncRequests(api: Api, psid: string, oldIds: seq<string>, newIds: seq<string>): (rs: seq<Result<Request>>)
    ensures |rs| == |UpdateUserLabels(oldIds, newIds)|
    ensures forall k :: 0 <= k < |rs| ==> rs[k] == OpRequest(api, psid, UpdateUserLabels(oldIds, newIds)[k])
  {
    var ops := UpdateUserLabels(oldIds, newIds);
    seq(|ops|, k requires 0 <= k < |ops| => OpRequest(api, psid, ops[k]))
  }

  /** `handleSubscriberUpdate`: `oldSubscriberLabels` is the populated
      subscriber's labels (None when no subscriber matches), `updatesHasLabels`
      whether the update carries a `labels` array, and `found` the labels
      that array refers to. The answer is the sync operations, or None when
      `updateUserLabels` is not called. */
  function SubscriberUpdate(oldSubscriberLabels: Option<seq<Label>>, updatesHasLabels: bool,
                            found: seq<Label>, channel: string): (r: Option<seq<LabelOp>>)
    ensures r.Some? <==>
      && oldSubscriberLabels.Some? && updatesHasLabels
      && |Difference(ChannelLabelIds(oldSubscriberLabels.value, channel), ChannelLabelIds(found, channel))
          + Difference(ChannelLabelIds(found, channel), ChannelLabelIds(oldSubscriberLabels.value, channel))| > 0
    ensures r.Some? ==>
      r.value == UpdateUserLabels(ChannelLabelIds(oldSubscriberLabels.value, channel), ChannelLabelIds(found, channel))
  {
    if oldSubscriberLabels.None? || !updatesHasLabels then None
    else
      var oldIds := ChannelLabelIds(oldSubscriberLabels.value, channel);
      var newIds := ChannelLabelIds(found, channel);
      var diff := Difference(oldIds, newIds) + Difference(newIds, oldIds);
      if |diff| > 0 then Some(UpdateUserLabels(oldIds, newIds)) else None
  }

  /** The two differences are empty together exactly when both id lists
      hold the same ids. */
  lemma DiffEmptyIffSameIds(a: seq<string>, b: seq<string>)
    ensures |Difference(a, b) + Difference(b, a)| == 0 <==> Elements(a) == Elements(b)
  {
    var gone, wanted := Difference(a, b), Difference(b, a);
    if gone != [] {
      assert gone[0] in gone;
      assert gone[0] in Elements(a) && gone[0] !in Elements(b);
    } else if wanted != [] {
      assert wanted[0] in wanted;
      assert wanted[0] in Elements(b) && wanted[0] !in Elements(a);
    } else {
      forall x ensures x in Elements(a) <==> x in Elements(b) {
        assert x !in gone && x !in wanted;
      }
    }
  }

  /** The labels are synced exactly when the subscriber's Messenger label
      set changes. */
  lemma SyncIffChannelIdsChange(oldSubscriberLabels: seq<Label>, found: seq<Label>, channel: string)
    ensures SubscriberUpdate(Some(oldSubscriberLabels), true, found, channel).Some? <==>
      Elements(ChannelLabelIds(oldSubscriberLabels, channel)) != Elements(ChannelLabelIds(found, channel))
  {
    DiffEmptyIffSameIds(ChannelLabelIds(oldSubscriberLabels, channel), ChannelLabelIds(found, channel));
  }
}

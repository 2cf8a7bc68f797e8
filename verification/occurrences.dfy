/**
 * The projection of recurring appointments into future occurrences, as
 * GetFutureOccurrences builds it: for each anchor in turn, one entry per
 * occurrence time, each copying the anchor's descriptive fields. How the
 * occurrence times of one anchor are computed is not part of this model:
 * `occ` stands for it.
 */
module Occurrences {
  import opened Models

  /** The entry for one occurrence of `anchor` at time `t`: the Go struct
      literal names five fields, so every other field has its zero value. */
  function Project(anchor: Appointment, t: int): (r: Appointment)
    ensures r.time == t && r.id == 0 && r.status == ""
    ensures r.customerName == anchor.customerName && r.duration == anchor.duration
    ensures r.notes == anchor.notes && r.recurrenceRule == anchor.recurrenceRule
  {
    Appointment(0, anchor.customerName, t, anchor.duration, anchor.notes, anchor.recurrenceRule, "", "", 0, 0)
  }

  /** The entries of one anchor, in the order of its occurrence times. */
  function Block(anchor: Appointment, times: seq<int>): (r: seq<Appointment>)
    ensures |r| == |times|
    ensures forall j :: 0 <= j < |times| ==> r[j] == Project(anchor, times[j])
  {
    seq(|times|, j requires 0 <= j < |times| => Project(anchor, times[j]))
  }

  /** All entries: the blocks of the anchors, concatenated in anchor order. */
  function Expand(anchors: seq<Appointment>, occ: Appointment -> seq<int>): seq<Appointment>
  {
    if anchors == [] then []
    else Expand(anchors[..|anchors| - 1], occ) + Block(anchors[|anchors| - 1], occ(anchors[|anchors| - 1]))
  }

  /** The total number of occurrences of the anchors. */
  function Count(anchors: seq<Appointment>, occ: Appointment -> seq<int>): nat
  {
    if anchors == [] then 0
    else Count(anchors[..|anchors| - 1], occ) + |occ(anchors[|anchors| - 1])|
  }

  /** One entry per occurrence per anchor. */
  lemma {:induction false} ExpandLength(anchors: seq<Appointment>, occ: Appointment -> seq<int>)
    ensures |Expand(anchors, occ)| == Count(anchors, occ)
  {
    if anchors != [] {
      ExpandLength(anchors[..|anchors| - 1], occ);
    }
  }

  /** Expanding a prefix gives a prefix of the expansion. */
  lemma {:induction false} ExpandPrefix(anchors: seq<Appointment>, occ: Appointment -> seq<int>, i: nat)
    requires i <= |anchors|
    ensures |Expand(anchors, occ)| == Count(anchors, occ)
    ensures Count(anchors[..i], occ) <= Count(anchors, occ)
    ensures Expand(anchors, occ)[..Count(anchors[..i], occ)] == Expand(anchors[..i], occ)
  {
    ExpandLength(anchors, occ);
    ExpandLength(anchors[..i], occ);
    if i < |anchors| {
      var init := anchors[..|anchors| - 1];
      assert init[..i] == anchors[..i];
      ExpandPrefix(init, occ, i);
      ExpandLength(init, occ);
      assert anchors[..|anchors|] == anchors;
    } else {
      assert anchors[..i] == anchors;
    }
  }

  /** In order: the j-th occurrence of the i-th anchor sits right after the
      occurrences of the anchors before it. */
  lemma ExpandAt(anchors: seq<Appointment>, occ: Appointment -> seq<int>, i: nat, j: nat)
    requires i < |anchors| && j < |occ(anchors[i])|
    ensures Count(anchors[..i], occ) + j < |Expand(anchors, occ)|
    ensures Expand(anchors, occ)[Count(anchors[..i], occ) + j] == Project(anchors[i], occ(anchors[i])[j])
  {
    var pre := anchors[..i + 1];
    assert pre[..i] == anchors[..i];
    ExpandPrefix(anchors, occ, i + 1);
    ExpandLength(pre[..i], occ);
    var n := Count(anchors[..i], occ);
    assert Expand(pre, occ) == Expand(anchors[..i], occ) + Block(anchors[i], occ(anchors[i]));
    assert Expand(pre, occ)[n + j] == Project(anchors[i], occ(anchors[i])[j]);
  }

  /** Every entry has no id and no status and copies the descriptive fields
      of one of the anchors. */
  lemma {:induction false} ExpandEntries(anchors: seq<Appointment>, occ: Appointment -> seq<int>)
    ensures forall k :: 0 <= k < |Expand(anchors, occ)| ==>
              var e := Expand(anchors, occ)[k];
              e.id == 0 && e.status == "" &&
              exists i :: 0 <= i < |anchors| && CopiesAnchor(e, anchors[i])
  {
    if anchors != [] {
      var init := anchors[..|anchors| - 1];
      ExpandEntries(init, occ);
      forall k | 0 <= k < |Expand(anchors, occ)|
        ensures var e := Expand(anchors, occ)[k];
                e.id == 0 && e.status == "" &&
                exists i :: 0 <= i < |anchors| && CopiesAnchor(e, anchors[i])
      {
        var e := Expand(anchors, occ)[k];
        if k < |Expand(init, occ)| {
          var i :| 0 <= i < |init| && CopiesAnchor(Expand(init, occ)[k], init[i]);
          assert anchors[i] == init[i];
        } else {
          assert CopiesAnchor(e, anchors[|anchors| - 1]);
        }
      }
    }
  }

  /** `e` carries `anchor`'s customer name, duration, notes and rule. */
  predicate CopiesAnchor(e: Appointment, anchor: Appointment)
  {
    e.customerName == anchor.customerName && e.duration == anchor.duration &&
    e.notes == anchor.notes && e.recurrenceRule == anchor.recurrenceRule
  }
}

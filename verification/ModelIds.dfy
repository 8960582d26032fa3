/** Model ids of core/gateway_model_ids.py and provider/model references of config/model_refs.py. */
module ModelIds {
  import opened Options

  const GATEWAY_PREFIX := "anthropic"
  const NO_THINKING_PREFIX := "claude-3-freecc-no-thinking"

  // ---- Splitting at the first slash ----

  datatype Parts = Parts(head: string, found: bool, tail: string)

  /** `str.partition("/")`. */
  function Partition(s: string): (p: Parts)
    ensures '/' !in p.head
    ensures p.found <==> '/' in s
    ensures s == if p.found then p.head + "/" + p.tail else p.head
  {
    if s == "" then Parts("", false, "")
    else if s[0] == '/' then Parts("", true, s[1..])
    else
      var rest := Partition(s[1..]);
      Parts([s[0]] + rest.head, rest.found, rest.tail)
  }

  lemma SlashPlace(head: string, tail: string, s: string)
    requires s == head + "/" + tail
    ensures |head| < |s| && s[|head|] == '/' && s[..|head|] == head && s[|head| + 1..] == tail
  {
  }

  /** A string is split at one place only: the pieces around the first slash are the parts. */
  lemma PartitionOfJoin(head: string, tail: string)
    requires '/' !in head
    ensures Partition(head + "/" + tail) == Parts(head, true, tail)
  {
    var s := head + "/" + tail;
    var p := Partition(s);
    SlashPlace(head, tail, s);
    SlashPlace(p.head, p.tail, s);
    assert forall i :: 0 <= i < |head| ==> s[..|head|][i] == s[i] && s[i] != '/';
    assert forall i :: 0 <= i < |p.head| ==> s[..|p.head|][i] == s[i] && s[i] != '/';
  }

  // ---- References ----

  datatype Ref = Ref(provider: string, model: string)

  function Join(r: Ref): string {
    r.provider + "/" + r.model
  }

  /** A provider/model pair that a reference can stand for. */
  predicate WellFormed(r: Ref) {
    '/' !in r.provider && r.provider != "" && r.model != ""
  }

  /** `split_provider_model_ref`; `None` is its ValueError. */
  function SplitRef(ref: string): Option<Ref> {
    var p := Partition(ref);
    if !p.found || p.head == "" || p.tail == "" then None else Some(Ref(p.head, p.tail))
  }

  /** Splitting and joining are inverse: a string splits into exactly the well-formed pair whose
      reference it is. */
  lemma SplitRefInverts(ref: string, r: Ref)
    ensures SplitRef(ref) == Some(r) <==> WellFormed(r) && ref == Join(r)
  {
    if WellFormed(r) {
      PartitionOfJoin(r.provider, r.model);
    }
  }

  // ---- Gateway ids ----

  datatype Decoded = Decoded(ref: Ref, forceReasoningOff: bool)

  function GatewayModelId(ref: string): string {
    GATEWAY_PREFIX + "/" + ref
  }

  function NoThinkingGatewayModelId(ref: string): string {
    NO_THINKING_PREFIX + "/" + ref
  }

  /** `decode_gateway_model_id`. */
  function Decode(name: string): Option<Decoded> {
    var outer := Partition(name);
    if !outer.found then None
    else if outer.head != GATEWAY_PREFIX && outer.head != NO_THINKING_PREFIX then None
    else
      var inner := Partition(outer.tail);
      if !inner.found || inner.tail == "" then None
      else Some(Decoded(Ref(inner.head, inner.tail), outer.head == NO_THINKING_PREFIX))
  }

  /** The id a decoded value is encoded as. */
  function Encode(d: Decoded): string {
    if d.forceReasoningOff then NoThinkingGatewayModelId(Join(d.ref)) else GatewayModelId(Join(d.ref))
  }

  /** Decoding inverts encoding in both directions: a name decodes to a pair and a flag exactly if it is
      the id these are encoded as. */
  lemma DecodeInverts(name: string, d: Decoded)
    ensures Decode(name) == Some(d) <==> '/' !in d.ref.provider && d.ref.model != "" && name == Encode(d)
  {
    if '/' !in d.ref.provider {
      PartitionOfJoin(if d.forceReasoningOff then NO_THINKING_PREFIX else GATEWAY_PREFIX, Join(d.ref));
      PartitionOfJoin(d.ref.provider, d.ref.model);
    }
    assert GATEWAY_PREFIX[1] != NO_THINKING_PREFIX[1];
  }

  // ---- Configured references ----

  /** `dict.fromkeys`: each string at its first place. */
  function Unique(s: seq<string>): (u: seq<string>)
    ensures forall i, j :: 0 <= i < j < |u| ==> u[i] != u[j]
    ensures forall x :: x in u <==> x in s
  {
    if s == [] then []
    else
      var before, last := Unique(s[..|s| - 1]), s[|s| - 1];
      if last in before then before else before + [last]
  }

  predicate FirstAt(s: seq<string>, i: nat) {
    i < |s| && s[i] !in s[..i]
  }

  /** The order is that of first occurrence. */
  lemma {:induction false} UniqueKeepsOrder(s: seq<string>, i: nat, j: nat) returns (k: nat, l: nat)
    requires FirstAt(s, i) && FirstAt(s, j) && i < j
    ensures k < l < |Unique(s)| && Unique(s)[k] == s[i] && Unique(s)[l] == s[j]
    decreases |s|
  {
    var before := s[..|s| - 1];
    if j < |s| - 1 {
      assert before[..i] == s[..i] && before[..j] == s[..j];
      k, l := UniqueKeepsOrder(before, i, j);
    } else {
      assert s[i] in before;
      assert s[..j] == before;
      k :| 0 <= k < |Unique(before)| && Unique(before)[k] == s[i];
      l := |Unique(before)|;
    }
  }
}

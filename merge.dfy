/** The one-level merge and filter primitives both configurators are built from, and the
    checked merge of one sub-document (`spec` or `status`) of a claim with that of its composite. */
module Merge {
  import opened Values
  import opened Errors

  /** Spec keys that belong to the claim alone and never reach the composite's spec. */
  const ClaimOnlySpecKeys: set<string> := {"resourceRef", "writeConnectionSecretToRef"}

  /** Spec keys that belong to the composite alone and never reach the claim's spec. */
  const CompositeOnlySpecKeys: set<string> := {"resourceRefs", "claimRef"}

  /** Status keys each resource owns itself; the claim keeps its own. */
  const CompositeOnlyStatusKeys: set<string> := {"conditions"}

  /** A shallow copy of `obj` without the `blocked` keys. */
  function FilterFields(obj: Object, blocked: set<string>): (r: Object)
    ensures forall k :: k in r <==> k in obj && k !in blocked
    ensures forall k :: k in r ==> r[k] == obj[k]
  {
    obj - blocked
  }

  /** Every key of `src` is written into `dst`, overwriting; keys only in `dst` stay. */
  function OverlayMerge(dst: Object, src: Object): (r: Object)
    ensures forall k :: k in r <==> k in dst || k in src
    ensures forall k :: k in src ==> r[k] == src[k]
    ensures forall k :: k in dst && k !in src ==> r[k] == dst[k]
  {
    dst + src
  }

  /** Every key of `src` is written into `dst` only where `dst` lacks it (late initialisation). */
  function LateInitMerge(dst: Object, src: Object): (r: Object)
    ensures forall k :: k in r <==> k in dst || k in src
    ensures forall k :: k in dst ==> r[k] == dst[k]
    ensures forall k :: k in src && k !in dst ==> r[k] == src[k]
  {
    src + dst
  }

  /** Which way a merge resolves a key both sides define. */
  datatype Strategy = Overlay | LateInit

  function Combine(dst: Object, src: Object, strategy: Strategy): Object
  {
    match strategy
    case Overlay => OverlayMerge(dst, src)
    case LateInit => LateInitMerge(dst, src)
  }

  /** The merge of a source sub-document into a destination one, either possibly absent: nothing
      to do when either is absent; otherwise each must be an object, the destination checked first,
      and the source, minus the `blocked` keys, is combined into the destination. */
  function MergeFields(dst: Option<Value>, src: Option<Value>, blocked: set<string>, strategy: Strategy)
    : (r: Result<Option<Value>>)
    ensures dst.None? || src.None? ==> r == Ok(dst)
    ensures dst.Some? && src.Some? && !dst.value.VObject? ==> r == Err(UnsupportedDstObject)
    ensures dst.Some? && src.Some? && dst.value.VObject? && !src.value.VObject?
      ==> r == Err(UnsupportedSrcObject)
    ensures r.Ok? ==> (r.value.Some? <==> dst.Some?)
    ensures dst.Some? && src.Some? && dst.value.VObject? && src.value.VObject? ==>
      && r.Ok? && r.value.Some? && r.value.value.VObject?
      && MergedFrom(dst.value.fields, src.value.fields, blocked, strategy, r.value.value.fields)
  {
    if dst.None? || src.None? then Ok(dst)
    else match (AsObject(dst.value), AsObject(src.value))
      case (None, _) => Err(UnsupportedDstObject)
      case (Some(_), None) => Err(UnsupportedSrcObject)
      case (Some(d), Some(s)) => Ok(Some(VObject(Combine(d, FilterFields(s, blocked), strategy))))
  }

  /** `m` is what a one-level merge of `src` minus `blocked` into `dst` yields, key by key. */
  ghost predicate MergedFrom(dst: Object, src: Object, blocked: set<string>, strategy: Strategy, m: Object)
  {
    && (forall k :: k in m <==> k in dst || (k in src && k !in blocked))
    && (forall k :: k in dst && (k !in src || k in blocked) ==> m[k] == dst[k])
    && (forall k :: k in src && k !in blocked && k !in dst ==> m[k] == src[k])
    && (forall k :: k in src && k !in blocked && k in dst ==>
          m[k] == (if strategy == Overlay then src[k] else dst[k]))
  }

  lemma {:induction false} FilterFieldsIdempotent(obj: Object, blocked: set<string>)
    ensures FilterFields(FilterFields(obj, blocked), blocked) == FilterFields(obj, blocked)
  {
  }

  lemma {:induction false} OverlayMergeIdempotent(dst: Object, src: Object)
    ensures OverlayMerge(OverlayMerge(dst, src), src) == OverlayMerge(dst, src)
  {
  }

  lemma {:induction false} LateInitMergeIdempotent(dst: Object, src: Object)
    ensures LateInitMerge(LateInitMerge(dst, src), src) == LateInitMerge(dst, src)
  {
  }

  /** Merging the same source a second time changes nothing more. */
  lemma {:induction false} MergeFieldsIdempotent(dst: Option<Value>, src: Option<Value>, blocked: set<string>, strategy: Strategy)
    requires MergeFields(dst, src, blocked, strategy).Ok?
    ensures var once := MergeFields(dst, src, blocked, strategy).value;
      MergeFields(once, src, blocked, strategy) == Ok(once)
  {
    if dst.Some? && src.Some? {
      var d, s := dst.value.fields, FilterFields(src.value.fields, blocked);
      match strategy
      case Overlay => OverlayMergeIdempotent(d, s);
      case LateInit => LateInitMergeIdempotent(d, s);
    }
  }
}

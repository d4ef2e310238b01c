/**
  `strict_order_snapshot_equal` (bot_utils/order_utils.py): the equality on
  untrusted nested payloads that trade deduplication rests on.  A payload is a
  finite tree; numbers that are not finite do not occur in it.
 */
module Snapshots {
  datatype Json =
    | Null
    | Bool(b: bool)
    | Int(i: int)
    | Float(r: real)
    | Str(s: string)
    | List(items: seq<Json>)
    | Tuple(items: seq<Json>)
    | Dict(entries: map<string, Json>)
    | Foreign(tag: nat)

  /** Python's `==` on two scalars of the same built-in type; everything else is compared by shape. */
  predicate StrictEqual(first: Json, second: Json)
    decreases first
  {
    match (first, second)
    case (Null, Null) => true
    case (Bool(a), Bool(b)) => a == b
    case (Int(a), Int(b)) => a == b
    case (Float(a), Float(b)) => a == b
    case (Str(a), Str(b)) => a == b
    case (List(a), List(b)) => |a| == |b| && forall k :: 0 <= k < |a| ==> StrictEqual(a[k], b[k])
    case (Tuple(a), Tuple(b)) => |a| == |b| && forall k :: 0 <= k < |a| ==> StrictEqual(a[k], b[k])
    case (Dict(a), Dict(b)) =>
      |a| == |b| && a.Keys == b.Keys && forall key :: key in a ==> StrictEqual(a[key], b[key])
    case _ => false
  }

  /** No object of an unknown type anywhere; such an object is not even equal to itself. */
  predicate Plain(x: Json) {
    match x
    case List(a) => forall k :: 0 <= k < |a| ==> Plain(a[k])
    case Tuple(a) => forall k :: 0 <= k < |a| ==> Plain(a[k])
    case Dict(a) => forall key :: key in a ==> Plain(a[key])
    case Foreign(_) => false
    case _ => true
  }

  /** Strict equality is structural identity on plain trees, so it is an equivalence there and only there. */
  lemma {:induction false} StrictEqualIsIdentity(x: Json, y: Json)
    ensures StrictEqual(x, y) <==> x == y && Plain(x)
    decreases x
  {
    match (x, y)
    case (List(a), List(b)) => ItemsIdentity(x, a, b);
    case (Tuple(a), Tuple(b)) => ItemsIdentity(x, a, b);
    case (Dict(a), Dict(b)) =>
      forall key | key in a && key in b
        ensures StrictEqual(a[key], b[key]) <==> a[key] == b[key] && Plain(a[key])
      {
        StrictEqualIsIdentity(a[key], b[key]);
      }
      if StrictEqual(x, y) {
        assert a == b;
      }
    case _ =>
  }

  lemma {:induction false} ItemsIdentity(x: Json, a: seq<Json>, b: seq<Json>)
    requires (x.List? || x.Tuple?) && x.items == a
    ensures (|a| == |b| && forall k :: 0 <= k < |a| ==> StrictEqual(a[k], b[k]))
       <==> (a == b && forall k :: 0 <= k < |a| ==> Plain(a[k]))
    decreases x, 0
  {
    forall k | 0 <= k < |a| && k < |b|
      ensures StrictEqual(a[k], b[k]) <==> a[k] == b[k] && Plain(a[k])
    {
      StrictEqualIsIdentity(a[k], b[k]);
    }
  }
}

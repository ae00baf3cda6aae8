/** What `broadcastMessage` sends: the one serialised payload, once to each
    member of the registry, in the registry's iteration order. */
module Fanout {
  import opened Protocol
  import opened Registry

  /** The sends of one broadcast of `payload` to `recipients`. */
  function Deliveries(recipients: seq<ClientId>, payload: Outbound): (r: seq<Send>)
    ensures |r| == |recipients|
    ensures forall s :: s in r ==> s.payload == payload && s.to in recipients
  {
    if recipients == [] then []
    else Deliveries(recipients[..|recipients| - 1], payload) + [Send(recipients[|recipients| - 1], payload)]
  }

  /** How many of `sends` go to `c`. */
  function SendsTo(sends: seq<Send>, c: ClientId): nat {
    if sends == [] then 0
    else SendsTo(sends[..|sends| - 1], c) + (if sends[|sends| - 1].to == c then 1 else 0)
  }

  /** A broadcast reaches every member exactly once and nobody else. */
  lemma {:induction false} DeliveredOnce(recipients: seq<ClientId>, payload: Outbound, c: ClientId)
    requires Distinct(recipients)
    ensures SendsTo(Deliveries(recipients, payload), c) == if c in recipients then 1 else 0
  {
    if recipients != [] {
      var n := |recipients| - 1;
      var front := recipients[..n];
      assert Distinct(front);
      DeliveredOnce(front, payload, c);
      var d := Deliveries(recipients, payload);
      assert d[..n] == Deliveries(front, payload);
      assert recipients == front + [recipients[n]];
      assert recipients[n] !in front by {
        forall i | 0 <= i < n ensures front[i] != recipients[n] {
          assert recipients[i] != recipients[n];
        }
      }
    }
  }

  /** The k-th send of a broadcast goes to the k-th member. */
  lemma {:induction false} DeliveriesInOrder(recipients: seq<ClientId>, payload: Outbound, k: nat)
    requires k < |recipients|
    ensures Deliveries(recipients, payload)[k] == Send(recipients[k], payload)
  {
    var n := |recipients| - 1;
    if k < n {
      DeliveriesInOrder(recipients[..n], payload, k);
    }
  }
}

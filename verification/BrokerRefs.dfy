/**
  Reference counts on broker producers. Partition producers take and give back broker producers under
  one lock; a broker producer whose count falls to zero has its input closed. Broker producers are
  numbered in the order of their creation.
 */
module BrokerRefs {
  type Broker = int
  type BrokerProducer = nat
  type PartitionProducer = int

  /** What a partition producer holds: a broker producer, and the leader it was taken for. */
  datatype Hold = Hold(leader: Broker, producer: BrokerProducer)

  type Holds = map<PartitionProducer, Hold>
  type Refs = map<BrokerProducer, int>

  ghost function Holders(holds: Holds, bp: BrokerProducer): set<PartitionProducer> {
    set p | p in holds && holds[p].producer == bp
  }

  ghost predicate NoRepeats(closed: seq<BrokerProducer>) {
    forall i, j :: 0 <= i < j < |closed| ==> closed[i] != closed[j]
  }

  /** Each count is the number of holders. */
  ghost predicate Counted(holds: Holds, refs: Refs) {
    && (forall bp :: bp in refs ==> refs[bp] == |Holders(holds, bp)| && refs[bp] > 0)
    && (forall p :: p in holds ==> holds[p].producer in refs)
  }

  /** Every broker producer ever made is either counted or closed, and it is closed once. */
  ghost predicate Accounted(refs: Refs, closed: seq<BrokerProducer>, created: nat) {
    && (forall bp: BrokerProducer :: bp < created <==> bp in refs || bp in closed)
    && (forall bp :: bp in refs ==> bp !in closed)
    && NoRepeats(closed)
  }

  /** What is offered is counted, and is only ever offered and held for the broker it was made for. */
  ghost predicate Offered(brokers: map<Broker, BrokerProducer>, refs: Refs, holds: Holds,
                          madeFor: map<BrokerProducer, Broker>) {
    && (forall b :: b in brokers ==> brokers[b] in refs)
    && (forall b :: b in brokers ==> brokers[b] in madeFor && madeFor[brokers[b]] == b)
    && (forall p :: p in holds ==> holds[p].producer in madeFor && madeFor[holds[p].producer] == holds[p].leader)
  }

  // ---------------------------------------------------------------- taking and giving back

  lemma TakenHolders(holds: Holds, p: PartitionProducer, h: Hold, bp: BrokerProducer)
    requires p !in holds
    ensures |Holders(holds[p := h], bp)| == |Holders(holds, bp)| + if bp == h.producer then 1 else 0
  {
    if bp == h.producer {
      assert Holders(holds[p := h], bp) == Holders(holds, bp) + {p};
    } else {
      assert Holders(holds[p := h], bp) == Holders(holds, bp);
    }
  }

  lemma GivenHolders(holds: Holds, p: PartitionProducer, bp: BrokerProducer)
    requires p in holds
    ensures |Holders(holds - {p}, bp)| == |Holders(holds, bp)| - if bp == holds[p].producer then 1 else 0
  {
    if bp == holds[p].producer {
      assert Holders(holds - {p}, bp) == Holders(holds, bp) - {p};
    } else {
      assert Holders(holds - {p}, bp) == Holders(holds, bp);
    }
  }

  /** One more holder, of a broker producer that is counted already or of a new one. */
  lemma CountedTaken(holds: Holds, refs: Refs, p: PartitionProducer, h: Hold, after: Refs)
    requires Counted(holds, refs) && p !in holds
    requires after == refs[h.producer := (if h.producer in refs then refs[h.producer] else 0) + 1]
    ensures Counted(holds[p := h], after)
  {
    hide Holders;
    forall bp | bp in after
      ensures after[bp] == |Holders(holds[p := h], bp)|
    {
      TakenHolders(holds, p, h, bp);
      if bp !in refs {
        Unheld(holds, refs, bp);
      }
    }
  }

  lemma Unheld(holds: Holds, refs: Refs, bp: BrokerProducer)
    requires Counted(holds, refs) && bp !in refs
    ensures Holders(holds, bp) == {}
  {
    assert forall p :: p !in Holders(holds, bp);
    assert Holders(holds, bp) == {};
  }

  /** Made or found, the broker producer is counted once more and offered for its broker. */
  lemma TakenKeeps(brokers: map<Broker, BrokerProducer>, refs: Refs, closed: seq<BrokerProducer>, created: nat,
                   holds: Holds, madeFor: map<BrokerProducer, Broker>, p: PartitionProducer, broker: Broker,
                   bp: BrokerProducer, after: Refs)
    requires Counted(holds, refs) && Accounted(refs, closed, created) && Offered(brokers, refs, holds, madeFor)
    requires p !in holds && bp == if broker in brokers then brokers[broker] else created
    requires after == refs[bp := (if bp in refs then refs[bp] else 0) + 1]
    ensures Accounted(after, closed, if broker in brokers then created else created + 1)
    ensures Offered(brokers[broker := bp], after, holds[p := Hold(broker, bp)], madeFor[bp := broker])
  {
    hide Holders, NoRepeats;
    if broker !in brokers {
      assert bp !in refs && bp !in closed;
    }
  }

  lemma CountedGiven(holds: Holds, refs: Refs, p: PartitionProducer, after: Refs)
    requires Counted(holds, refs) && p in holds
    requires var bp := holds[p].producer;
             after == if refs[bp] == 1 then refs - {bp} else refs[bp := refs[bp] - 1]
    ensures Counted(holds - {p}, after)
    ensures Holders(holds - {p}, holds[p].producer) == {} <==> refs[holds[p].producer] == 1
  {
    hide Holders;
    var mine := holds[p].producer;
    forall bp | bp in refs
      ensures |Holders(holds - {p}, bp)| == refs[bp] - if bp == mine then 1 else 0
    {
      GivenHolders(holds, p, bp);
    }
    forall q | q in holds - {p}
      ensures holds[q].producer in after
    {
      if holds[q].producer == mine {
        Shared(holds, p, q);
      }
    }
    assert Holders(holds - {p}, mine) == {} <==> |Holders(holds - {p}, mine)| == 0;
  }

  lemma Shared(holds: Holds, p: PartitionProducer, q: PartitionProducer)
    requires p in holds && q in holds && p != q && holds[p].producer == holds[q].producer
    ensures |Holders(holds, holds[p].producer)| >= 2
  {
    var both := {p, q};
    assert both <= Holders(holds, holds[p].producer);
    Subset(both, Holders(holds, holds[p].producer));
  }

  lemma {:induction false} Subset(a: set<PartitionProducer>, b: set<PartitionProducer>)
    requires a <= b
    ensures |a| <= |b|
  {
    assert b == a + (b - a);
  }

  lemma NewOrCounted(brokers: map<Broker, BrokerProducer>, refs: Refs, closed: seq<BrokerProducer>, created: nat,
                     holds: Holds, madeFor: map<BrokerProducer, Broker>)
    requires Accounted(refs, closed, created) && Offered(brokers, refs, holds, madeFor)
    ensures created !in refs && forall b :: b in brokers ==> brokers[b] in refs
  {}

  class Producers {
    var brokers: map<Broker, BrokerProducer>
    var brokerRefs: Refs
    var closed: seq<BrokerProducer>
    var created: nat
    ghost var holds: Holds
    ghost var madeFor: map<BrokerProducer, Broker>

    ghost predicate Valid()
      reads this
    {
      Counted(holds, brokerRefs) && Accounted(brokerRefs, closed, created) && Offered(brokers, brokerRefs, holds, madeFor)
    }

    constructor ()
      ensures Valid() && holds == map[] && closed == []
    {
      brokers, brokerRefs, closed, created := map[], map[], [], 0;
      holds, madeFor := map[], map[];
    }

    method GetBrokerProducer(broker: Broker, ghost p: PartitionProducer) returns (bp: BrokerProducer)
      requires Valid() && p !in holds
      modifies this
      ensures Valid() && holds == old(holds)[p := Hold(broker, bp)] && closed == old(closed)
      ensures broker in brokers && brokers[broker] == bp
      ensures broker in old(brokers) ==> bp == old(brokers)[broker]
    {
      hide Counted, Accounted, Offered;
      ghost var refs, offers := brokerRefs, brokers;
      if broker in brokers {
        bp := brokers[broker];
      } else {
        bp := created;
        created := created + 1;
        brokers := brokers[broker := bp];
        brokerRefs := brokerRefs[bp := 0];
      }
      NewOrCounted(old(brokers), refs, closed, old(created), holds, old(madeFor));
      brokerRefs := brokerRefs[bp := brokerRefs[bp] + 1];
      CountedTaken(holds, refs, p, Hold(broker, bp), brokerRefs);
      TakenKeeps(offers, refs, closed, old(created), holds, madeFor, p, broker, bp, brokerRefs);
      assert brokers == offers[broker := bp];
      madeFor := madeFor[bp := broker];
      holds := holds[p := Hold(broker, bp)];
    }

    /** The input is closed when, and only when, the last holder gives the broker producer back. */
    method UnrefBrokerProducer(ghost p: PartitionProducer, broker: Broker, bp: BrokerProducer)
      requires Valid() && p in holds && holds[p] == Hold(broker, bp)
      modifies this
      ensures Valid() && holds == old(holds) - {p}
      ensures closed == old(closed) + if Holders(holds, bp) == {} then [bp] else []
    {
      hide Counted, Holders;
      HeldCounted(holds, brokerRefs);
      ghost var refs := brokerRefs;
      ghost var after := if refs[bp] == 1 then refs - {bp} else refs[bp := refs[bp] - 1];
      CountedGiven(holds, refs, p, after);
      holds := holds - {p};
      brokerRefs := brokerRefs[bp := brokerRefs[bp] - 1];
      if brokerRefs[bp] == 0 {
        closed := closed + [bp];
        brokerRefs := brokerRefs - {bp};
        assert brokerRefs == after;
        if broker in brokers && brokers[broker] == bp {
          brokers := brokers - {broker};
        }
      }
    }

    /** Nobody is given the broker producer of this broker any more; those who hold it keep it. */
    method AbandonBrokerConnection(broker: Broker)
      requires Valid()
      modifies `brokers
      ensures Valid() && brokers == old(brokers) - {broker}
    {
      brokers := brokers - {broker};
    }
  }

  lemma HeldCounted(holds: Holds, refs: Refs)
    requires Counted(holds, refs)
    ensures forall p :: p in holds ==> holds[p].producer in refs
    ensures forall bp :: bp in refs ==> refs[bp] > 0
  {}

  /** What a partition producer holds is open, so nothing is sent to a closed input. */
  lemma HeldIsOpen(s: Producers, p: PartitionProducer)
    requires s.Valid() && p in s.holds
    ensures s.holds[p].producer !in s.closed
  {}

  /** An input is closed exactly when nobody holds the broker producer, and at most once. */
  lemma ClosedOnce(s: Producers, bp: BrokerProducer)
    requires s.Valid() && bp < s.created
    ensures bp in s.closed <==> Holders(s.holds, bp) == {}
    ensures multiset(s.closed)[bp] <= 1
  {
    if bp in s.brokerRefs {
      assert |Holders(s.holds, bp)| > 0;
    } else {
      Unheld(s.holds, s.brokerRefs, bp);
    }
    OnceIn(s.closed, bp);
  }

  lemma {:induction false} OnceIn(closed: seq<BrokerProducer>, bp: BrokerProducer)
    requires NoRepeats(closed)
    ensures multiset(closed)[bp] <= 1
  {
    if closed != [] {
      var n := |closed| - 1;
      OnceIn(closed[..n], bp);
      assert closed == closed[..n] + [closed[n]];
      if bp == closed[n] {
        assert bp !in closed[..n];
      }
    }
  }
}

/** A whole pass over the removals: what it takes from the node, and what it leaves alone. */
module Cleanup {
  import opened Domain
  import opened Xray
  import opened Synchronizer
  import opened Projection
  import opened Intent
  import opened Store
  import opened Drift
  import opened Rows
  import opened Worker

  ghost predicate HonestFates(fates: seq<seq<Choice>>) { forall m :: 0 <= m < |fates| ==> AllHonest(fates[m]) }

  /** Some removal of this pass names the inbound, or the client. */
  predicate NamesInbound(rows: seq<Removal>, order: seq<nat>, tag: string) {
    exists m :: 0 <= m < |order| && order[m] < |rows| && rows[order[m]].whole && rows[order[m]].tag == tag
  }

  predicate NamesClient(rows: seq<Removal>, order: seq<nat>, tag: string, id: string) {
    exists m :: 0 <= m < |order| && order[m] < |rows| && !rows[order[m]].whole && rows[order[m]].tag == tag && rows[order[m]].identity == id
  }

  /** Nothing new, and nothing gone that no removal of the pass names. */
  ghost predicate SparesAll(rows: seq<Removal>, order: seq<nat>, n: Node, n': Node) {
    && (forall tag :: tag in n'.inbounds ==> tag in n.inbounds && n'.inbounds[tag].port == n.inbounds[tag].port)
    && (forall tag :: tag in n.inbounds && !NamesInbound(rows, order, tag) ==> tag in n'.inbounds)
    && (forall tag, id :: tag in n'.inbounds && id in n'.inbounds[tag].clients ==>
          id in n.inbounds[tag].clients && n'.inbounds[tag].clients[id] == n.inbounds[tag].clients[id])
    && (forall tag, id :: tag in n'.inbounds && id in n.inbounds[tag].clients && !NamesClient(rows, order, tag, id) ==>
          id in n'.inbounds[tag].clients)
  }

  lemma SparedStep(r: Removal, n: Node, n': Node)
    requires Spared(r, n, n')
    ensures forall tag :: tag in n'.inbounds ==> tag in n.inbounds && n'.inbounds[tag].port == n.inbounds[tag].port
    ensures forall tag :: tag in n.inbounds && !(r.whole && r.tag == tag) ==> tag in n'.inbounds
    ensures forall tag, id :: tag in n'.inbounds && id in n'.inbounds[tag].clients ==>
              id in n.inbounds[tag].clients && n'.inbounds[tag].clients[id] == n.inbounds[tag].clients[id]
    ensures forall tag, id :: tag in n'.inbounds && id in n.inbounds[tag].clients && !(!r.whole && r.tag == tag && r.identity == id) ==>
              id in n'.inbounds[tag].clients
  {
    assert forall tag :: tag in n.inbounds && tag != r.tag ==> tag in n.inbounds - {r.tag};
    assert forall tag :: tag in n'.inbounds && tag != r.tag ==> tag in n'.inbounds - {r.tag};
    assert forall tag :: tag in n.inbounds - {r.tag} ==> n.inbounds[tag] == (n.inbounds - {r.tag})[tag] == n'.inbounds[tag];
    if r.tag in n'.inbounds && !r.whole {
      assert forall id :: id in n.inbounds[r.tag].clients && id != r.identity ==> id in n.inbounds[r.tag].clients - {r.identity};
    }
  }

  /** However its calls fail, a pass over the removals takes nothing from the node but what they name, inbound by inbound and
      client by client, and adds nothing. */
  lemma {:induction false} PassSpares(before: seq<Removal>, after: seq<Removal>, users: seq<User>, order: seq<nat>, nodes: seq<Node>,
                                      fates: seq<seq<Choice>>, options: Options, now: int, k: nat)
    requires AllCleaned(before, after, users, order, nodes, fates, options, now) && HonestFates(fates) && k <= |order|
    ensures SparesAll(before, order[..k], nodes[0], nodes[k])
  {
    if k > 0 {
      PassSpares(before, after, users, order, nodes, fates, options, now, k - 1);
      TurnSpares(before, after, users, order, nodes, fates, options, now, k - 1);
      assert order[..k] == order[..k - 1] + [order[k - 1]];
      SparesOn(before, order[..k - 1], order[k - 1], nodes[0], nodes[k - 1], nodes[k]);
    }
  }

  lemma TurnSpares(before: seq<Removal>, after: seq<Removal>, users: seq<User>, order: seq<nat>, nodes: seq<Node>,
                   fates: seq<seq<Choice>>, options: Options, now: int, m: nat)
    requires AllCleaned(before, after, users, order, nodes, fates, options, now) && HonestFates(fates) && m < |order|
    ensures order[m] < |before| && Spared(before[order[m]], nodes[m], nodes[m + 1])
  {
    hide OwnerOf, Spared, CleanedCalmly, GoneFor, CleaningRecorded;
  }

  lemma SparesOn(rows: seq<Removal>, order: seq<nat>, i: nat, n0: Node, n: Node, n': Node)
    requires i < |rows| && SparesAll(rows, order, n0, n) && Spared(rows[i], n, n')
    ensures SparesAll(rows, order + [i], n0, n')
  {
    hide Spared;
    SparedStep(rows[i], n, n');
    NamesMore(rows, order, i);
  }

  lemma NamesMore(rows: seq<Removal>, order: seq<nat>, i: nat)
    requires i < |rows|
    ensures forall tag :: !NamesInbound(rows, order + [i], tag) ==>
              !NamesInbound(rows, order, tag) && !(rows[i].whole && rows[i].tag == tag)
    ensures forall tag, id :: !NamesClient(rows, order + [i], tag, id) ==>
              !NamesClient(rows, order, tag, id) && !(!rows[i].whole && rows[i].tag == tag && rows[i].identity == id)
  {
    var more := order + [i];
    assert more[|order|] == i;
    assert forall m :: 0 <= m < |order| ==> more[m] == order[m];
  }

  /** What the pass recorded as removed is gone when it ends: nothing in it comes back. */
  lemma PassRemoves(before: seq<Removal>, after: seq<Removal>, users: seq<User>, order: seq<nat>, nodes: seq<Node>,
                    fates: seq<seq<Choice>>, options: Options, now: int, m: nat)
    requires AllCleaned(before, after, users, order, nodes, fates, options, now) && HonestFates(fates)
    requires m < |order| && after[order[m]].state == Succeeded
    ensures GoneFor(before[order[m]], nodes[|order|])
  {
    hide OwnerOf, Spared, CleanedCalmly, CleaningRecorded;
    assert Cleaned(before[order[m]], after[order[m]], OwnerOf(users, before[order[m]].tag), nodes[m], nodes[m + 1], Fate(fates, m),
                   options.maxRetry, now);
    assert GoneFor(before[order[m]], nodes[m + 1]);
    StaysGone(before, after, users, order, nodes, fates, options, now, before[order[m]], m + 1, |order|);
  }

  lemma {:induction false} StaysGone(before: seq<Removal>, after: seq<Removal>, users: seq<User>, order: seq<nat>, nodes: seq<Node>,
                                     fates: seq<seq<Choice>>, options: Options, now: int, r: Removal, from: nat, to: nat)
    requires AllCleaned(before, after, users, order, nodes, fates, options, now) && HonestFates(fates)
    requires from <= to <= |order| && GoneFor(r, nodes[from])
    ensures GoneFor(r, nodes[to])
    decreases if from <= to then to - from else 0
  {
    if from < to {
      TurnSpares(before, after, users, order, nodes, fates, options, now, from);
      StillGone(before[order[from]], r, nodes[from], nodes[from + 1]);
      StaysGone(before, after, users, order, nodes, fates, options, now, r, from + 1, to);
    }
  }

  lemma StillGone(s: Removal, r: Removal, n: Node, n': Node)
    requires Spared(s, n, n') && GoneFor(r, n)
    ensures GoneFor(r, n')
  {
    hide Spared;
    SparedStep(s, n, n');
  }
}

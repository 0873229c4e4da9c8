/** Which node a request gets, by its topology. */
module Topologies {
  import opened Wrappers
  import opened Devices
  import opened Tables
  import opened MasterAllocator

  /** The node lists a device that matches now. */
  ghost predicate Offers<R>(parse: Parser, m: Master<R>, params: Params, n: string)
    requires RefsOk(m)
  {
    n in m.byNode && exists k :: 0 <= k < |m.byNode[n]| && Match(parse, m.store[m.byNode[n][k]], params) == OK
  }

  lemma OffersMatch<R>(parse: Parser, m: Master<R>, params: Params, n: string)
    requires RefsOk(m)
    ensures Offers(parse, m, params, n) <==> n in NodesWith(parse, m, params, OK)
  {
    if Offers(parse, m, params, n) {
      var k :| 0 <= k < |m.byNode[n]| && Match(parse, m.store[m.byNode[n][k]], params) == OK;
      assert Verdicts(parse, m, params, m.byNode[n])[k] == OK;
    }
  }

  /** The device found is on the first of the named nodes that has a match, in the order of the topologies
      that count, whatever the others say; and it is the last matching one in that node's list. */
  lemma FirstNamedWins<R>(parse: Parser, m: Master<R>, params: Params, key: string, t: Topology, ts: seq<Params>,
                          k: nat,
                          n: string, found: FindResult<R>)
    requires RefsOk(m) && FindOutcome(parse, m, params, Requested(t, key), found)
    requires t.Restricted? && (t.preferred == Some(ts) || (t.preferred == None && t.requisite == Some(ts)))
    requires k < |ts| && n == (if key in ts[k] then ts[k][key] else "") && Offers(parse, m, params, n)
    requires forall i | 0 <= i < k :: !Offers(parse, m, params, if key in ts[i] then ts[i][key] else "")
    ensures found.Found? && found.node == n
    ensures exists j :: LastOffer(parse, m, params, n, j) && m.byNode[n][j] == found.device
  {
    var matching, requested := NodesWith(parse, m, params, OK), Requested(t, key);
    forall i | 0 <= i <= k ensures requested[i] in matching <==> i == k {
      OffersMatch(parse, m, params, requested[i]);
    }
    assert requested[k] == n && n in matching;
    assert FirstRequested(matching, requested, n);
    FirstRequestedUnique(matching, requested, n, found.node);
    LastIsOffer(parse, m, params, n, found.device);
  }

  /** The j-th device of the node matches, and no later one does. */
  ghost predicate LastOffer<R>(parse: Parser, m: Master<R>, params: Params, n: string, j: int)
    requires RefsOk(m)
  {
    && n in m.byNode && 0 <= j < |m.byNode[n]| && Match(parse, m.store[m.byNode[n][j]], params) == OK
    && forall i | j < i < |m.byNode[n]| :: Match(parse, m.store[m.byNode[n][i]], params) != OK
  }

  ghost predicate FirstOffer<R>(parse: Parser, m: Master<R>, params: Params, n: string, j: int)
    requires RefsOk(m)
  {
    && n in m.byNode && 0 <= j < |m.byNode[n]| && Match(parse, m.store[m.byNode[n][j]], params) == OK
    && forall i | 0 <= i < j :: Match(parse, m.store[m.byNode[n][i]], params) != OK
  }

  lemma LastIsOffer<R>(parse: Parser, m: Master<R>, params: Params, n: string, d: R)
    requires RefsOk(m)
    ensures LastMatch(parse, m, params, n, d) <==>
            exists j :: LastOffer(parse, m, params, n, j) && m.byNode[n][j] == d
  {
    if n in m.byNode {
      var codes := Verdicts(parse, m, params, m.byNode[n]);
      forall j ensures LastOk(codes, j) <==> LastOffer(parse, m, params, n, j) {
        assert forall i | 0 <= i < |codes| :: codes[i] == Match(parse, m.store[m.byNode[n][i]], params);
      }
    }
  }

  lemma FirstIsOffer<R>(parse: Parser, m: Master<R>, params: Params, n: string, d: R)
    requires RefsOk(m)
    ensures FirstMatch(parse, m, params, n, d) <==>
            exists j :: FirstOffer(parse, m, params, n, j) && m.byNode[n][j] == d
  {
    if n in m.byNode {
      var codes := Verdicts(parse, m, params, m.byNode[n]);
      forall j ensures FirstOk(codes, j) <==> FirstOffer(parse, m, params, n, j) {
        assert forall i | 0 <= i < |codes| :: codes[i] == Match(parse, m.store[m.byNode[n][i]], params);
      }
    }
  }

  /** With no topology, or none that counts, every node with a match may be the answer, with its first
      matching device, and no other device of it. */
  lemma AnyNodeMayWin<R>(parse: Parser, m: Master<R>, params: Params, key: string, t: Topology, n: string, d: R)
    requires RefsOk(m)
    requires t == Unrestricted || (t.Restricted? && t.preferred == Some([])) ||
             (t.Restricted? && t.preferred == None && (t.requisite == None || t.requisite == Some([])))
    ensures FindOutcome(parse, m, params, Requested(t, key), Found(n, d)) <==>
            exists j :: FirstOffer(parse, m, params, n, j) && m.byNode[n][j] == d
  {
    FirstIsOffer(parse, m, params, n, d);
  }

  /** If no named node has a match, every other node with one may be the answer all the same. */
  lemma OthersMayWin<R>(parse: Parser, m: Master<R>, params: Params, key: string, t: Topology, ts: seq<Params>,
                        n: string, d: R)
    requires RefsOk(m) && |ts| > 0
    requires t.Restricted? && (t.preferred == Some(ts) || (t.preferred == None && t.requisite == Some(ts)))
    requires forall i | 0 <= i < |ts| :: !Offers(parse, m, params, if key in ts[i] then ts[i][key] else "")
    ensures FindOutcome(parse, m, params, Requested(t, key), Found(n, d)) <==>
            exists j :: LastOffer(parse, m, params, n, j) && m.byNode[n][j] == d
  {
    var matching, requested := NodesWith(parse, m, params, OK), Requested(t, key);
    forall i | 0 <= i < |requested| ensures requested[i] !in matching {
      OffersMatch(parse, m, params, requested[i]);
    }
    LastIsOffer(parse, m, params, n, d);
  }

  /** A search that finds nothing blames exhaustion if and only if a named node has an exhausted device. */
  lemma ExhaustedNamed<R>(parse: Parser, m: Master<R>, params: Params, key: string, t: Topology, ts: seq<Params>,
                          code: Code)
    requires RefsOk(m) && FindOutcome(parse, m, params, Requested(t, key), Missing(code))
    requires t.Restricted? && (t.preferred == Some(ts) || (t.preferred == None && t.requisite == Some(ts)))
    ensures code ==
            if exists k :: 0 <= k < |ts| && NodeExhausted(parse, m, params, if key in ts[k] then ts[k][key] else "")
            then ResourceExhausted else NotFound
  {
    FindSoundComplete(parse, m, params, Requested(t, key), Missing(code));
    var requested := Requested(t, key);
    forall k | 0 <= k < |ts| ensures requested[k] == if key in ts[k] then ts[k][key] else "" {
    }
    if k :| 0 <= k < |requested| && NodeExhausted(parse, m, params, requested[k]) {
      assert NodeExhausted(parse, m, params, if key in ts[k] then ts[k][key] else "");
    }
    if k :| 0 <= k < |ts| && NodeExhausted(parse, m, params, if key in ts[k] then ts[k][key] else "") {
      assert NodeExhausted(parse, m, params, requested[k]);
    }
  }
}

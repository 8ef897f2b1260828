/** The two reference-page controllers as mutable objects: one owns receipts, the other their task lineage. */
module ReferenceControllers {
  import opened Prelude
  import opened TaskScope
  import TA = TaskAuthority
  import AR = AuthorityRuns
  import opened TaskAuthorityManager

  /** Issues one receipt for each proved clone, and spends it before the delete is sent. */
  class ReferencePageLifecycleController {
    var tokens: map<TA.Receipt, nat>
    var nextReceipt: nat
    ghost var deletes: seq<(TA.Receipt, nat)>
    ghost var proofs: map<TA.Receipt, AR.CreateEvidence>

    constructor ()
      ensures tokens == map[] && nextReceipt == 0 && deletes == [] && proofs == map[]
    {
      tokens, nextReceipt, deletes, proofs := map[], 0, [], map[];
    }

    /** What the transport returned for a clone: a receipt when the evidence holds. */
    method FinishCreate(source: Target, evidence: Option<AR.CreateEvidence>, authority: Manager) returns (r: Option<TA.Receipt>)
      modifies this`tokens, this`proofs, this`nextReceipt, authority`eligible
      ensures r.Some? <==> evidence.Some? && AR.CreateVerified(source, evidence.value)
      ensures r.Some? ==>
                && r.value == TA.Receipt(old(nextReceipt), source, evidence.value.created) && nextReceipt == old(nextReceipt) + 1
                && tokens == old(tokens)[r.value := evidence.value.token]
                && proofs == old(proofs)[r.value := evidence.value]
                && authority.eligible == old(authority.eligible) + {r.value}
      ensures r.None? ==> tokens == old(tokens) && proofs == old(proofs) && nextReceipt == old(nextReceipt)
                          && authority.eligible == old(authority.eligible)
    {
      hide AR.CreateVerified;
      if evidence.None? || !AR.CreateVerified(source, evidence.value) { return None; }
      var receipt := TA.Receipt(nextReceipt, source, evidence.value.created);
      nextReceipt := nextReceipt + 1;
      tokens, proofs := tokens[receipt := evidence.value.token], proofs[receipt := evidence.value];
      authority.eligible := authority.eligible + {receipt};
      return Some(receipt);
    }

    /** Spends the token, then sends the delete with it. */
    method SendCleanup(r: TA.Receipt) returns (ok: bool)
      modifies this`tokens, this`deletes
      ensures ok <==> r in old(tokens)
      ensures ok ==> tokens == old(tokens) - {r} && deletes == old(deletes) + [(r, old(tokens)[r])]
      ensures !ok ==> tokens == old(tokens) && deletes == old(deletes)
    {
      if r !in tokens { return false; }
      var token := tokens[r];
      tokens := tokens - {r};
      deletes := deletes + [(r, token)];
      return true;
    }
  }

  /** Carries the task lineage across the inventory change that a clone causes. */
  class TaskScopedController {
    const controller: ReferencePageLifecycleController
    const authority: Manager
    var lineage: map<TA.Receipt, AR.Lineage>
    var works: map<nat, AR.Work>
    ghost var minted: set<TA.Guard>

    constructor (controller: ReferencePageLifecycleController, authority: Manager)
      ensures this.controller == controller && this.authority == authority && lineage == map[] && works == map[] && minted == {}
    {
      this.controller, this.authority := controller, authority;
      lineage, works, minted := map[], map[], {};
    }

    ghost function View(): AR.State
      reads this, controller, authority
    {
      AR.State(authority.State(), minted, None, map[], [], works, controller.tokens, lineage, controller.deletes,
               controller.proofs, controller.nextReceipt)
    }

    /** Everything up to the remote clone. */
    method BeginCreate(work: nat, source: Target, now: int)
      requires source.Page? && work !in works
      modifies this`works, authority
      ensures View() == AR.CreateBegun(old(View()), work, source, now)
    {
      hide TA.BeginReference, TA.Scoped;
      var lease := authority.BeginReferenceInventoryMutation(source, None, now);
      if lease.Err? || authority.active.None? { return; }
      var grant := authority.active.value.grant;
      works := works[work := AR.Work(lease.value, grant.taskId, TA.Scoped(grant), source, None, [])];
    }

    /** Everything after the remote clone; the lease is given back however it ends. */
    method EndCreate(work: nat, evidence: Option<AR.CreateEvidence>, now: int)
      requires work in works
      modifies this, controller, authority
      ensures View() == AR.CreateEnded(old(View()), work, evidence, now)
    {
      hide TA.Accept, AR.CreateVerified, TA.EndReference;
      var w := works[work];
      works := works - {work};
      var receipt := controller.FinishCreate(w.source, evidence, authority);
      if receipt.Some? {
        var e := evidence.value;
        var rebound := authority.AcceptVerifiedReferenceInventoryTransition(
          TA.Transition(TA.Clone, w.taskId, w.scoped, w.lease, receipt.value, e.baseline, e.createdPages), now);
        if rebound.Ok? {
          lineage := lineage[receipt.value := AR.Lineage(w.taskId, w.scoped, e.createdPages)];
          minted := minted + {TA.GuardOf(rebound.value)};
        }
      }
      authority.EndReferenceInventoryMutation(w.lease);
    }

    /** Everything up to the remote delete; the lineage and then the token are spent before it is sent. */
    method BeginCleanup(work: nat, r: TA.Receipt, now: int)
      requires work !in works
      modifies this`works, this`lineage, controller, authority
      ensures View() == AR.CleanupBegun(old(View()), work, r, now)
    {
      hide TA.BeginReference, TA.Scoped, TA.GuardLive, TA.EndReference, TA.Current;
      authority.Current(now);
      if r !in lineage || !r.source.Page? || authority.active.None? { return; }
      var a := authority.active.value;
      var known := lineage[r];
      if !TA.GuardLive(authority.State(), TA.GuardOf(a), now) || a.grant.taskId != known.taskId
         || TA.Scoped(a.grant) != known.scoped { return; }
      var lease := authority.BeginReferenceInventoryMutation(r.source, Some(r), now);
      if lease.Err? { return; }
      lineage := lineage - {r};
      var spent := controller.SendCleanup(r);
      if !spent {
        authority.EndReferenceInventoryMutation(lease.value);
        return;
      }
      works := works[work := AR.Work(lease.value, known.taskId, known.scoped, r.source, Some(r), known.createdPages)];
    }

    /** Everything after the remote delete. */
    method EndCleanup(work: nat, cleaned: Option<AR.CleanupEvidence>, now: int)
      requires work in works && works[work].cleanup.Some?
      modifies this, authority
      ensures View() == AR.CleanupEnded(old(View()), work, cleaned, now)
    {
      hide TA.Accept, TA.EndReference;
      var w := works[work];
      var r := w.cleanup.value;
      works := works - {work};
      if cleaned.Some? && r.created.Page? && AR.CleanupVerified(r, cleaned.value) {
        var rebound := authority.AcceptVerifiedReferenceInventoryTransition(
          TA.Transition(TA.Cleanup, w.taskId, w.scoped, w.lease, r, w.pages, cleaned.value.activePages), now);
        if rebound.Ok? { minted := minted + {TA.GuardOf(rebound.value)}; }
      }
      authority.EndReferenceInventoryMutation(w.lease);
    }
  }
}

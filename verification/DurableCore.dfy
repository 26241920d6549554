/** The durable domain core: states, commands and the compare-and-swap action repository
    (durable_core.py).  A repository is a class whose fields the methods update in place; the pure
    functions beside it say what each method does to the stored value. */
module DurableCore {
  import opened Options

  type Id = string

  datatype IncidentState =
    | Detected | Evaluating | Planned | WardenReview | Approved | Mitigating
    | Verifying | Recovering | Resolved | Blocked | Failed | Escalated | Cancelled

  datatype ActionState =
    | Pending | Ready | Sent | Acknowledged | Available | Success | Failed | TimedOut
    | RollbackRequired | RolledBack | OutcomeUnknown | ReconciliationRequired

  datatype VerificationState = Pending | Improved | Unchanged | Degraded | Failed | InsufficientEvidence

  datatype RecoveryState = Pending | Releasing | VerifyingRelease | Complete | Partial | Failed

  datatype CommandType = QodPlan | GeofencePlan | SliceAttachPlan | QodRelease | GeofenceDelete | SliceDetach

  /** The commands that ACTION_KIND lists: those a plan may contain and a rollback may undo. */
  predicate IsPlanType(t: CommandType) { t.QodPlan? || t.GeofencePlan? || t.SliceAttachPlan? }

  function RollbackType(t: CommandType): CommandType
    requires IsPlanType(t)
  {
    match t case QodPlan => QodRelease case GeofencePlan => GeofenceDelete case SliceAttachPlan => SliceDetach
  }

  /** The entries of `preconditions` that the executor reads; `None` stands for a missing or ill-typed value. */
  datatype Preconditions = Preconditions(
    confidence: Option<real>, blastRadius: Option<real>, selectedDeviceCount: Option<int>,
    wardenAllow: bool, trustedDispatchRequired: bool)

  datatype ActionCommand = ActionCommand(
    commandId: Id, incidentId: Id, commandType: CommandType, resourceKey: Id, planVersion: int,
    requestedAt: int, guaranteedProfile: bool, pre: Preconditions,
    state: ActionState, providerResourceId: Option<Id>, attemptCount: nat,
    lastAttemptAt: Option<int>, completedAt: Option<int>, version: nat)
  {
    function Key(): IdempotencyKey { IdempotencyKey(incidentId, commandType, resourceKey, planVersion) }

    /** The identity of the command that would undo this one. */
    function RollbackKey(): IdempotencyKey
      requires IsPlanType(commandType)
    {
      Key().(commandType := RollbackType(commandType))
    }
  }

  /** SHA-256 of the four identity fields, taken to be injective. */
  datatype IdempotencyKey = IdempotencyKey(incidentId: Id, commandType: CommandType, resourceKey: Id, planVersion: int)

  predicate TerminalAction(s: ActionState) { s.Success? || s.Failed? || s.RolledBack? }

  // ---------------------------------------------------------------- action repository

  datatype ActionStore = ActionStore(byId: map<Id, ActionCommand>, byKey: map<IdempotencyKey, Id>)
  {
    /** Each stored command is filed under its own identity and its own key, one command a key. */
    ghost predicate Indexed() {
      && (forall id <- byId :: byId[id].commandId == id && byId[id].Key() in byKey && byKey[byId[id].Key()] == id)
      && (forall k <- byKey :: byKey[k] in byId && byId[byKey[k]].Key() == k)
    }

    /** Commands are filed under their own identity, and the key index points at stored commands. */
    predicate Filed() { (forall id <- byId :: byId[id].commandId == id) && (forall k <- byKey :: byKey[k] in byId) }

    function CreateOrGet(c: ActionCommand): (r: (ActionStore, ActionCommand))
      requires Filed()
    {
      if c.Key() in byKey then (this, byId[byKey[c.Key()]])
      else (ActionStore(byId[c.commandId := c], byKey[c.Key() := c.commandId]), c)
    }

    /** The compare-and-swap of `update`: `None` is VersionConflict. */
    function Update(c: ActionCommand, expected: nat): Option<ActionStore> {
      if c.commandId in byId && byId[c.commandId].version == expected
      then Some(this.(byId := byId[c.commandId := c.(version := expected + 1)]))
      else None
    }

    function MarkRestartUnknown(): ActionStore {
      this.(byId := map id | id in byId :: RestartedCommand(byId[id]))
    }
  }

  function RestartedCommand(c: ActionCommand): ActionCommand {
    if c.state.Sent? then c.(state := OutcomeUnknown, version := c.version + 1) else c
  }

  class ActionRepository {
    var byId: map<Id, ActionCommand>
    var byKey: map<IdempotencyKey, Id>

    function Store(): ActionStore reads this { ActionStore(byId, byKey) }

    constructor ()
      ensures Store() == ActionStore(map[], map[])
    {
      byId, byKey := map[], map[];
    }

    method CreateOrGet(c: ActionCommand) returns (stored: ActionCommand, created: bool)
      requires Store().Filed()
      modifies this
      ensures (Store(), stored) == old(Store().CreateOrGet(c))
      ensures created <==> c.Key() !in old(byKey)
      ensures !created ==> Store() == old(Store()) && stored == byId[byKey[c.Key()]]
      ensures created ==> stored == c && byId == old(byId)[c.commandId := c] && byKey == old(byKey)[c.Key() := c.commandId]
      ensures Store().Filed() && (old(Store().Indexed()) && c.commandId !in old(byId) ==> Store().Indexed())
    {
      if c.Key() in byKey {
        return byId[byKey[c.Key()]], false;
      }
      byId := byId[c.commandId := c];
      byKey := byKey[c.Key() := c.commandId];
      return c, true;
    }

    method Update(c: ActionCommand, expected: nat) returns (stored: Option<ActionCommand>)
      modifies this
      ensures stored.Some? <==> c.commandId in old(byId) && old(byId)[c.commandId].version == expected
      ensures stored.Some? ==> byId == old(byId)[c.commandId := c.(version := expected + 1)] && byKey == old(byKey)
      ensures stored.None? ==> old(Store().Update(c, expected)).None? && Store() == old(Store())
      ensures stored.Some? ==> Some(Store()) == old(Store().Update(c, expected)) && stored.value == Store().byId[c.commandId]
      ensures stored.Some? ==> stored.value == c.(version := expected + 1)
    {
      if c.commandId !in byId || byId[c.commandId].version != expected {
        return None;
      }
      byId := byId[c.commandId := c.(version := expected + 1)];
      return Some(byId[c.commandId]);
    }

    /** Every command left in SENT by a dead process becomes OUTCOME_UNKNOWN; nothing else changes. */
    method MarkRestartUnknown()
      modifies this
      ensures Store() == old(Store().MarkRestartUnknown())
      ensures byKey == old(byKey) && byId.Keys == old(byId.Keys)
      ensures forall id <- byId :: var before := old(byId)[id];
                byId[id] == if before.state == Sent then before.(state := OutcomeUnknown, version := before.version + 1) else before
    {
      var todo := byId.Keys;
      while todo != {}
        invariant byKey == old(byKey) && byId.Keys == old(byId).Keys && todo <= byId.Keys
        invariant forall id <- byId :: byId[id] == if id in todo then old(byId)[id] else RestartedCommand(old(byId)[id])
        decreases todo
      {
        var id :| id in todo;
        var item := byId[id];
        if item.state.Sent? {
          byId := byId[id := item.(state := OutcomeUnknown, version := item.version + 1)];
        }
        todo := todo - {id};
      }
      assert byId == old(Store().MarkRestartUnknown()).byId;
    }
  }
}

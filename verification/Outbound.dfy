/**
 Drafts, the message tools and the send policy shared by the campaign and cadence engines
 (nexus/orchestration/tools.py, nexus/campaigns/service.py). The language model, the address verifier,
 the mailbox and the sequence platform are inputs.
 */
module Outbound {
  import opened Wrappers

  /** The verifier's verdict on an address. */
  datatype Verdict = Valid | Invalid | Risky | Unknown

  /** The draft dictionary on the blackboard; a missing key reads as the field's empty value. */
  datatype Draft = Draft(
    contactId: Option<string>,
    subject: string,
    body: string,
    grounded: bool,
    emailStatus: Option<Verdict>,
    emailConfidence: Option<real>,
    sourced: bool,
    draftMode: bool)

  const NO_DRAFT: Draft := Draft(None, "", "", false, None, None, false, false)

  datatype SkipReason =
    | SkipNoContact | SkipUngrounded | SkipUndeliverable | SkipResearchFailed
    | SkipUnverified | SkipRisky | SkipRejected

  // ---- compose_message -------------------------------------------------------------------

  /** What composing found out: the agent's text, the facts at hand, and the contact looked up. */
  datatype Composition = Composition(
    contactId: Option<string>,
    subject: string,
    body: string,
    facts: nat,
    address: Option<(Verdict, real)>)

  /** The draft `compose_message` stages. */
  function Staged(c: Composition): Draft {
    var verdict := if c.contactId.Some? then c.address else None;
    Draft(c.contactId, c.subject, c.body, c.facts > 0,
      if verdict.Some? then Some(verdict.value.0) else None,
      if verdict.Some? then Some(verdict.value.1) else None,
      false, false)
  }

  /** The draft a run leaves behind; one that staged none leaves an empty dictionary. */
  function DraftOf(staged: Option<Composition>): Draft {
    if staged.Some? then Staged(staged.value) else NO_DRAFT
  }

  /** A contact row, as far as the tools write it. */
  class Contact {
    var email: Option<string>
    var emailStatus: Option<Verdict>
  }

  /** The run's blackboard, as far as the message tools use it. */
  class Blackboard {
    var facts: nat
    var draft: Option<Draft>
  }

  /** Look a contact up; without an address there is nothing to verify. */
  ghost function AddressOf(contacts: map<string, Contact>, id: Option<string>): Option<string>
    reads contacts.Values
  {
    if id.Some? && id.value in contacts then contacts[id.value].email else None
  }

  /** `ComposeMessageTool.run` after the agent returned: verify the recipient now, stage the draft. */
  method Compose(bb: Blackboard, contacts: map<string, Contact>, verify: string -> (Verdict, real),
      contactId: Option<string>, subject: string, body: string) returns (c: Composition)
    modifies bb`draft, contacts.Values
    ensures bb.draft == Some(Staged(c))
    ensures var d, address := Staged(c), old(AddressOf(contacts, contactId));
      && d.contactId == contactId && d.subject == subject && d.body == body
      && (d.grounded <==> old(bb.facts) > 0)
      && (if address.Some? && address.value != ""
          then d.emailStatus == Some(verify(address.value).0) && d.emailConfidence == Some(verify(address.value).1)
          else d.emailStatus == None && d.emailConfidence == None)
      && !d.sourced && !d.draftMode
    ensures c == Composition(contactId, subject, body, old(bb.facts),
      var address := old(AddressOf(contacts, contactId));
      if address.Some? && address.value != "" then Some(verify(address.value)) else None)
    ensures forall id :: id in contacts ==> contacts[id].email == old(contacts[id].email)
    ensures forall id :: id in contacts && contacts[id].emailStatus != old(contacts[id].emailStatus) ==>
      && contactId.Some? && contactId.value in contacts && contacts[contactId.value] == contacts[id]
      && c.address.Some? && contacts[id].emailStatus == Some(c.address.value.0)
  {
    var grounded := bb.facts > 0;
    var address: Option<(Verdict, real)> := None;
    if contactId.Some? && contactId.value in contacts {
      var contact := contacts[contactId.value];
      if contact.email.Some? && contact.email.value != "" {
        var verdict := verify(contact.email.value);
        address := Some(verdict);
        contact.emailStatus := Some(verdict.0);
      }
    }
    bb.draft := Some(Draft(contactId, subject, body, grounded,
      if address.Some? then Some(address.value.0) else None,
      if address.Some? then Some(address.value.1) else None,
      false, false));
    c := Composition(contactId, subject, body, bb.facts, address);
  }

  // ---- send_message ----------------------------------------------------------------------

  /** Free text in an error, as far as the callers search it for words. */
  datatype Text = Text(saysUngrounded: bool, saysUndeliverable: bool)

  datatype ToolError =
    | NothingToSend
    | NoMailbox
    | SaveFailed(detail: Text)
    | RefusedUngrounded
    | RefusedUndeliverable(address: Text)
    | SmtpFailed(detail: Text)

  /** The callers match on words of the error message, in lower case. */
  function SaysUngrounded(e: ToolError): bool {
    match e
    case SaveFailed(d) => d.saysUngrounded
    case RefusedUngrounded => true
    case RefusedUndeliverable(a) => a.saysUngrounded
    case SmtpFailed(d) => d.saysUngrounded
    case _ => false
  }

  /** "undeliverable" or "invalid". */
  function SaysUndeliverable(e: ToolError): bool {
    match e
    case SaveFailed(d) => d.saysUndeliverable
    case RefusedUndeliverable(_) => true
    case SmtpFailed(d) => d.saysUndeliverable
    case _ => false
  }

  datatype Mailbox = NoAccount | Account(configured: bool)

  /** Any other exception from the services called, before the push to the sequence platform or after it. */
  datatype Crash = NoCrash | BeforePush | AfterPush

  /** Everything a send reads or calls. */
  datatype SendEnv = SendEnv(
    email: Option<string>,
    verdict: Verdict,
    addressText: Text,
    mailbox: Mailbox,
    saveError: Option<Text>,
    smtpError: Option<Text>,
    crash: Crash)

  datatype SendResult = Sent | SavedToDrafts | Refused(error: ToolError) | Crashed

  /** The tool returned: the callers take that for "sent". */
  predicate Returned(r: SendResult) {
    r.Sent? || r.SavedToDrafts?
  }

  predicate HasAddress(env: SendEnv) {
    env.email.Some? && env.email.value != ""
  }

  /** The draft reaches the sequence platform: past every gate, and nothing raised before the push. */
  predicate Pushed(draft: Option<Draft>, env: SendEnv) {
    && draft.Some? && (draft.value.subject != "" || draft.value.body != "") && !draft.value.draftMode
    && draft.value.grounded && !(HasAddress(env) && env.verdict == Invalid) && env.crash != BeforePush
  }

  /**
   `SendMessageTool.run`: ordered gates that raise, then the push and, with an address and a configured
   mailbox, the delivery. What is pushed stays pushed, whatever raises after it.
   */
  method Send(draft: Option<Draft>, env: SendEnv) returns (r: SendResult, pushed: bool)
    ensures r == SendOutcome(draft, env)
    ensures pushed == Pushed(draft, env)
  {
    pushed := false;
    if draft.None? || (draft.value.subject == "" && draft.value.body == "") {
      return Refused(NothingToSend), pushed;
    }
    if draft.value.draftMode {
      if env.mailbox.NoAccount? {
        return Refused(NoMailbox), pushed;
      }
      if env.crash != NoCrash {
        return Crashed, pushed;
      }
      if env.saveError.Some? {
        return Refused(SaveFailed(env.saveError.value)), pushed;
      }
      return SavedToDrafts, pushed;
    }
    if !draft.value.grounded {
      return Refused(RefusedUngrounded), pushed;
    }
    if env.email.Some? && env.email.value != "" {
      if env.verdict == Invalid {
        return Refused(RefusedUndeliverable(env.addressText)), pushed;
      }
    }
    if env.crash == BeforePush {
      return Crashed, pushed;
    }
    pushed := true;
    if env.email.Some? && env.email.value != "" {
      if env.crash == AfterPush {
        return Crashed, pushed;
      }
      if env.mailbox.Account? && env.mailbox.configured {
        if env.smtpError.Some? {
          return Refused(SmtpFailed(env.smtpError.value)), pushed;
        }
      }
    }
    return Sent, pushed;
  }

  function SendOutcome(draft: Option<Draft>, env: SendEnv): SendResult {
    if draft.None? || (draft.value.subject == "" && draft.value.body == "") then Refused(NothingToSend)
    else if draft.value.draftMode then
      if env.mailbox.NoAccount? then Refused(NoMailbox)
      else if env.crash != NoCrash then Crashed
      else if env.saveError.Some? then Refused(SaveFailed(env.saveError.value))
      else SavedToDrafts
    else if !draft.value.grounded then Refused(RefusedUngrounded)
    else if HasAddress(env) && env.verdict == Invalid then Refused(RefusedUndeliverable(env.addressText))
    else if env.crash == BeforePush || (env.crash == AfterPush && HasAddress(env)) then Crashed
    else if HasAddress(env) && env.mailbox == Account(true) && env.smtpError.Some?
      then Refused(SmtpFailed(env.smtpError.value))
    else Sent
  }

  /** What the tool did leaves the house: pushed to the sequence, or put into the drafts folder. */
  predicate HandedOver(draft: Draft, env: SendEnv) {
    Pushed(Some(draft), env) || SendOutcome(Some(draft), env).SavedToDrafts?
  }

  /** A pushed draft that is not reported as sent: what comes after the push went wrong. */
  predicate FailsAfterPush(env: SendEnv) {
    HasAddress(env) && (env.crash == AfterPush || (env.mailbox == Account(true) && env.smtpError.Some?))
  }

  /** The gates hold on every message that leaves, and each one is the whole reason it is refused. */
  lemma SendGates(draft: Option<Draft>, env: SendEnv)
    ensures SendOutcome(draft, env) == Sent <==> Pushed(draft, env) && !FailsAfterPush(env)
    ensures Pushed(draft, env) ==>
      draft.Some? && draft.value.grounded && !draft.value.draftMode && !(HasAddress(env) && env.verdict == Invalid)
    ensures SendOutcome(draft, env) == Refused(RefusedUngrounded) <==>
      && draft.Some? && (draft.value.subject != "" || draft.value.body != "")
      && !draft.value.draftMode && !draft.value.grounded
    ensures SendOutcome(draft, env).SavedToDrafts? ==> draft.Some? && draft.value.draftMode
  {
  }

  predicate HasText(draft: Option<Draft>) {
    draft.Some? && (draft.value.subject != "" || draft.value.body != "")
  }

  /** The drafts folder of a mailbox is called, and answers. */
  predicate FolderAnswers(draft: Option<Draft>, env: SendEnv) {
    HasText(draft) && draft.value.draftMode && env.mailbox.Account? && env.crash == NoCrash
  }

  /** The gates are passed and the delivery is tried: there is an address, a configured mailbox, and no exception. */
  predicate Delivers(draft: Option<Draft>, env: SendEnv) {
    Pushed(draft, env) && HasAddress(env) && env.crash == NoCrash && env.mailbox == Account(true)
  }

  /** The address was found invalid, and that is why the draft is refused. */
  predicate FoundInvalid(draft: Option<Draft>, env: SendEnv) {
    && HasText(draft) && !draft.value.draftMode && draft.value.grounded
    && HasAddress(env) && env.verdict == Invalid
  }

  /**
   How a send ends, each way under its own condition, and the words the callers find in a refusal: those of
   the folder or the delivery that failed, and of the tool's own gates.
   */
  lemma SendEndings(draft: Option<Draft>, env: SendEnv)
    ensures var r := SendOutcome(draft, env);
      && (r == SavedToDrafts <==> FolderAnswers(draft, env) && env.saveError.None?)
      && (r == Refused(NothingToSend) <==> !HasText(draft))
      && (r == Refused(NoMailbox) <==> HasText(draft) && draft.value.draftMode && env.mailbox.NoAccount?)
      && (r == Crashed <==>
            || (HasText(draft) && draft.value.draftMode && env.mailbox.Account? && env.crash != NoCrash)
            || (Pushed(draft, env) && env.crash == AfterPush && HasAddress(env))
            || (Pushed(draft, env.(crash := NoCrash)) && env.crash == BeforePush))
      && (r.Refused? && SaysUndeliverable(r.error) <==>
            || (FolderAnswers(draft, env) && env.saveError.Some? && env.saveError.value.saysUndeliverable)
            || FoundInvalid(draft, env)
            || (Delivers(draft, env) && env.smtpError.Some? && env.smtpError.value.saysUndeliverable))
      && (r.Refused? && SaysUngrounded(r.error) <==>
            || (FolderAnswers(draft, env) && env.saveError.Some? && env.saveError.value.saysUngrounded)
            || (HasText(draft) && !draft.value.draftMode && !draft.value.grounded)
            || (FoundInvalid(draft, env) && env.addressText.saysUngrounded)
            || (Delivers(draft, env) && env.smtpError.Some? && env.smtpError.value.saysUngrounded))
  {
  }

  // ---- The policy --------------------------------------------------------------------------

  /** `_send_policy`: why to hold a draft, or None to let it go. */
  function SendPolicy(d: Draft, sendRisky: bool, bar: real): Option<SkipReason> {
    match d.emailStatus
    case Some(Invalid) => Some(SkipUndeliverable)
    case Some(Risky) => if sendRisky then None else Some(SkipRisky)
    case Some(Valid) => None
    case _ =>
      if d.sourced && (if d.emailConfidence.Some? then d.emailConfidence.value else 0.0) < bar
        then Some(SkipUnverified) else None
  }

  /** `_classify`: the primary reason a fresh draft is not sendable. */
  function Classify(d: Draft): Option<SkipReason> {
    if !d.grounded then Some(SkipUngrounded)
    else if d.contactId.None? || d.contactId.value == "" || d.emailStatus.None? then Some(SkipNoContact)
    else if d.emailStatus == Some(Invalid) then Some(SkipUndeliverable)
    else None
  }

  /** A draft both gates let through, in the documents' own terms. */
  predicate Sendable(d: Draft, sendRisky: bool, bar: real) {
    && d.grounded
    && d.emailStatus != Some(Invalid)
    && (d.emailStatus == Some(Risky) ==> sendRisky)
    && (d.sourced && d.emailStatus in {Some(Unknown), None} ==>
          (d.emailConfidence.Some? && d.emailConfidence.value >= bar) || (d.emailConfidence.None? && bar <= 0.0))
  }

  lemma PolicyMeansSendable(d: Draft, sendRisky: bool, bar: real)
    ensures d.grounded && SendPolicy(d, sendRisky, bar) == None <==> Sendable(d, sendRisky, bar)
  {
  }

  /** The verifier left the address open, below the bar; a missing address counts as confidence 0. */
  predicate BelowBar(c: Composition, bar: real) {
    if c.contactId.None? || c.address.None? then 0.0 < bar
    else c.address.value.0 == Unknown && c.address.value.1 < bar
  }

  /**
   The bar binds only drafts that carry the `sourced` mark, and composing never sets it. So the policy
   decides otherwise on a composed draft than on the same draft marked exactly when it is below the bar:
   the marked one is held as unverified, the other goes.
   */
  lemma MarkDecidesIffBelowBar(c: Composition, sendRisky: bool, bar: real)
    ensures SendPolicy(Staged(c), sendRisky, bar) != SendPolicy(Staged(c).(sourced := true), sendRisky, bar) <==>
      BelowBar(c, bar)
    ensures SendPolicy(Staged(c).(sourced := true), sendRisky, bar) == Some(SkipUnverified) <==> BelowBar(c, bar)
    ensures BelowBar(c, bar) ==> SendPolicy(Staged(c), sendRisky, bar) == None
  {
  }
}

/** Batch assembly for the mail service (domain/actions/postmark.ts, createBatchEmailArray). */
module Postmark {
  import opened Common
  import opened Types

  /** fillContentVariables: placeholder substitution, not part of this model. */
  type Filler = (string, ContactVariables) -> string

  /** `v.ID === recipient.id`. */
  predicate BelongsTo(v: ContactVariables, recipient: Contact)
  {
    "ID" in v && v["ID"] == recipient.id
  }

  /** `variables.find(...)`, as an index: the first set that belongs to the recipient. */
  function FindVariables(variables: seq<ContactVariables>, recipient: Contact): (i: Option<nat>)
    ensures i.Some? ==> i.value < |variables| && BelongsTo(variables[i.value], recipient)
                        && forall j :: 0 <= j < i.value ==> !BelongsTo(variables[j], recipient)
    ensures i.None? ==> forall j :: 0 <= j < |variables| ==> !BelongsTo(variables[j], recipient)
  {
    if variables == [] then None
    else if BelongsTo(variables[0], recipient) then Some(0)
    else match FindVariables(variables[1..], recipient)
         case None => None
         case Some(k) => Some(k + 1)
  }

  /** The defaults used for a recipient that has no variable set of its own. */
  function FallbackVariables(recipient: Contact): ContactVariables
  {
    map["ID" := recipient.id, "EMAIL" := recipient.email, "FIRSTNAME" := recipient.firstName]
  }

  /** The variable set a recipient's message is filled from. */
  function VariableSet(variables: seq<ContactVariables>, recipient: Contact): (v: ContactVariables)
    ensures BelongsTo(v, recipient)
    ensures (exists j :: 0 <= j < |variables| && BelongsTo(variables[j], recipient))
            <==> v in variables
  {
    match FindVariables(variables, recipient)
    case Some(i) => variables[i]
    case None =>
      FallbackVariables(recipient)
  }

  function MessageFor(recipient: Contact, subject: string, htmlContent: string,
                      variables: seq<ContactVariables>, fill: Filler): Message
  {
    Message(FROM_EMAIL, recipient.email, subject, "", fill(htmlContent, VariableSet(variables, recipient)), MESSAGE_STREAM)
  }

  /** One message per recipient, in recipient order, all with the email's subject. */
  function CreateBatchEmailArray(recipients: seq<Contact>, email: Email, htmlContent: string,
                                 variables: seq<ContactVariables>, fill: Filler): (messages: seq<Message>)
    ensures |messages| == |recipients|
  {
    if recipients == [] then []
    else [MessageFor(recipients[0], email.subject, htmlContent, variables, fill)]
         + CreateBatchEmailArray(recipients[1..], email, htmlContent, variables, fill)
  }

  /** What the k-th message of a batch holds: the k-th recipient, the email's subject, the filled body. */
  lemma {:induction false} BatchMessages(recipients: seq<Contact>, email: Email, htmlContent: string,
                                         variables: seq<ContactVariables>, fill: Filler)
    ensures var messages := CreateBatchEmailArray(recipients, email, htmlContent, variables, fill);
            forall k :: 0 <= k < |recipients| ==>
              && messages[k].from == FROM_EMAIL
              && messages[k].to == recipients[k].email
              && messages[k].subject == email.subject
              && messages[k].textBody == ""
              && messages[k].htmlBody == fill(htmlContent, VariableSet(variables, recipients[k]))
              && messages[k].messageStream == MESSAGE_STREAM
  {
    if recipients != [] {
      BatchMessages(recipients[1..], email, htmlContent, variables, fill);
    }
  }

  /** The set a message is filled from is the first one with the recipient's ID, if there is one. */
  lemma FirstMatchingSetWins(variables: seq<ContactVariables>, recipient: Contact, i: nat)
    requires i < |variables| && BelongsTo(variables[i], recipient)
    requires forall j :: 0 <= j < i ==> !BelongsTo(variables[j], recipient)
    ensures VariableSet(variables, recipient) == variables[i]
  {
  }

  /** Without a set of its own, a recipient's message is filled from its own ID, email and first name. */
  lemma NoMatchFallsBack(variables: seq<ContactVariables>, recipient: Contact)
    requires forall j :: 0 <= j < |variables| ==> !BelongsTo(variables[j], recipient)
    ensures VariableSet(variables, recipient) == FallbackVariables(recipient)
  {
  }
}

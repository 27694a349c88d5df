/** The records and settings the scheduler works with (domain/types.ts, domain/settings.ts). */
module Types {

  /** The untyped field map of an Airtable row: column name to value. */
  type Row = map<string, string>

  datatype AirtableRecord<T> = AirtableRecord(id: string, fields: T, createdTime: string)

  /**
   * One email campaign as the routes handle it. `testNumber` is the
   * "Test Number" column, which the test route reads although the declared
   * type does not list it.
   */
  datatype Email = Email(
    airtableId: string,
    emailId: string,
    templateId: string,
    scheduleDate: string,
    automationId: string,
    status: string,
    subject: string,
    lastModified: string,
    sentAt: string,
    testNumber: string)

  datatype Automation = Automation(id: string, name: string)

  datatype Template = Template(userid: string, name: string, content: string, previewContent: string)

  /** A recipient of a batch (ShortenedContact). */
  datatype Contact = Contact(id: string, email: string, firstName: string)

  /** Per-recipient placeholder values; the key "ID" names the contact. */
  type ContactVariables = map<string, string>

  /** A custom field of the automation platform, as listed by listFields. */
  datatype Field = Field(id: string, tag: string)

  /** One outbound message of a batch (PostmarkEmail). */
  datatype Message = Message(
    from: string,
    to: string,
    subject: string,
    textBody: string,
    htmlBody: string,
    messageStream: string)

  /** One per-recipient outcome of a batch send (EmailSendResponse). */
  datatype SendResponse = SendResponse(
    errorCode: int,
    message: string,
    messageId: string,
    submittedAt: string,
    to: string)

  const READY_TO_SEND_STATUS: string := "Ready"
  const FROM_EMAIL: string := "Jared.M.Spool@centercentre.com"
  const MESSAGE_STREAM: string := "outbound"
  const FETCH_DELAY_SEC: nat := 1

  /**
   * Settings whose values the model does not fix: the retry delay table
   * (seconds per attempt) and the status names and test automation that
   * the routes import but whose values are not part of this model.
   */
  datatype Config = Config(
    delays: seq<nat>,
    draftStatus: string,
    readyToTestStatus: string,
    testedStatus: string,
    sentStatus: string,
    testAutomation: string)
}

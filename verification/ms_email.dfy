/**
 The Microsoft Graph e-mail toolkit: sending to an address, sending to a person
 looked up by name (contacts first, then people), shaping fetched messages into
 records, and building the tool registry a worker binds. Every Graph call is a
 function parameter standing for what the service answers.
 */
module MsEmail {
  import opened Results
  import opened Text
  import opened Capabilities

  // ---------------------------------------------------------------- sending

  datatype Recipient = Recipient(address: string)
  datatype ItemBody = ItemBody(content: string, contentType: string)

  /** The message posted to Graph's send-mail endpoint. */
  datatype OutgoingMail = OutgoingMail(
    subject: string,
    body: ItemBody,
    toRecipients: seq<Recipient>,
    saveToSentItems: bool)

  /** A directory query issued to Graph: a contacts filter, or a people search. */
  datatype Lookup =
    | ContactsLookup(filter: string, select: seq<string>)
    | PeopleLookup(search: string)

  /**
   What a send call did: the directory queries it issued, in order, the mails
   it posted, and the `status` entry of the dictionary it returned.
   */
  datatype Effects = Effects(lookups: seq<Lookup>, posted: seq<OutgoingMail>, status: string)

  const SentStatus: string := "Email sent successfully."

  /** Sends an HTML mail to exactly one address and reports success. */
  function SendEmail(subject: string, bodyHtml: string, toRecipient: string): (e: Effects)
    ensures e.lookups == [] && |e.posted| == 1 && e.status == SentStatus
    ensures e.posted[0].toRecipients == [Recipient(toRecipient)]
    ensures e.posted[0].subject == subject
    ensures e.posted[0].body == ItemBody(bodyHtml, "html")
    ensures e.posted[0].saveToSentItems
  {
    var mail := OutgoingMail(subject, ItemBody(bodyHtml, "html"), [Recipient(toRecipient)], true);
    Effects([], [mail], SentStatus)
  }

  // ------------------------------------------------------ lookup by name

  /** An address entry as Graph returns it; the address itself may be missing. */
  datatype EmailAddress = EmailAddress(address: Option<string>)

  /** A contact; a missing address list is the empty list. */
  datatype Contact = Contact(emailAddresses: seq<EmailAddress>)

  /** A person from the relevance-ranked people list; a missing list is the empty list. */
  datatype Person = Person(scoredEmailAddresses: seq<EmailAddress>)

  /** Graph's answer to a contacts filter; no answer and no value are the empty list. */
  type ContactsSearch = string -> seq<Contact>

  /** Graph's answer to a people search; no answer and no value are the empty list. */
  type PeopleSearch = string -> seq<Person>

  /** Python truthiness of a value that is a string or `None`. */
  predicate Truthy(a: Option<string>) {
    a.Some? && a.value != ""
  }

  /** The first address of the first contact, when both lists are non-empty. */
  function FirstContactAddress(contacts: seq<Contact>): Option<string> {
    if |contacts| > 0 && |contacts[0].emailAddresses| > 0
    then contacts[0].emailAddresses[0].address
    else None
  }

  /** The first scored address of the first person, when both lists are non-empty. */
  function FirstPersonAddress(people: seq<Person>): Option<string> {
    if |people| > 0 && |people[0].scoredEmailAddresses| > 0
    then people[0].scoredEmailAddresses[0].address
    else None
  }

  const ContactsSelect: seq<string> := ["emailAddresses", "displayName"]

  /** The OData filter matching `name` in a contact's display name, given name or surname. */
  function ContactsFilter(name: string): (f: string)
    ensures Contains(f, name)
  {
    var head := "contains(displayName,'";
    var tail := "') or contains(givenName,'" + name + "') or contains(surname,'" + name + "')";
    var f := head + name + tail;
    OccursInFrame(head, name, tail);
    f
  }

  /** The people search term: the name in double quotes. */
  function PeopleQuery(name: string): (q: string)
    ensures Contains(q, name)
  {
    var q := "\"" + name + "\"";
    OccursInFrame("\"", name, "\"");
    q
  }

  const NotFoundHead: string := "No email address found for the name '"
  const NotFoundTail: string := "' in contacts or people."

  /** The status returned when neither contacts nor people yield an address for `name`. */
  function NotFoundStatus(name: string): (s: string)
    ensures OccursAt(name, s, |NotFoundHead|)
  {
    OccursInFrame(NotFoundHead, name, NotFoundTail);
    NotFoundHead + name + NotFoundTail
  }

  /** Reads the looked-up name back out of a not-found status; `None` for any other text. */
  function NameOfNotFound(status: string): Option<string> {
    if |NotFoundHead| + |NotFoundTail| <= |status|
       && status[..|NotFoundHead|] == NotFoundHead
       && status[|status| - |NotFoundTail|..] == NotFoundTail
    then Some(status[|NotFoundHead|..|status| - |NotFoundTail|])
    else None
  }

  /** The not-found status names exactly the name that was looked up, and is never the success status. */
  lemma NotFoundStatusRoundTrip(name: string)
    ensures NameOfNotFound(NotFoundStatus(name)) == Some(name)
    ensures NameOfNotFound(SentStatus) == None
  {
    var s := NotFoundStatus(name);
    assert s[..|NotFoundHead|] == NotFoundHead;
    assert s[|s| - |NotFoundTail|..] == NotFoundTail;
    assert s[|NotFoundHead|..|s| - |NotFoundTail|] == name;
    assert SentStatus[0] != NotFoundHead[0];
  }

  /**
   The address a stripped name resolves to: the first contact's first address
   when that is a non-empty string, else the first person's first scored
   address when that is, else nothing.
   */
  function ResolveRecipient(name: string, contacts: ContactsSearch, people: PeopleSearch): (r: Option<string>)
    ensures r.Some? ==> r.value != ""
    ensures Truthy(FirstContactAddress(contacts(ContactsFilter(name)))) ==>
      r == FirstContactAddress(contacts(ContactsFilter(name)))
    ensures !Truthy(FirstContactAddress(contacts(ContactsFilter(name)))) ==>
      (r.Some? <==> Truthy(FirstPersonAddress(people(PeopleQuery(name)))))
      && (r.Some? ==> r == FirstPersonAddress(people(PeopleQuery(name))))
  {
    var fromContacts := FirstContactAddress(contacts(ContactsFilter(name)));
    if Truthy(fromContacts) then fromContacts
    else
      var fromPeople := FirstPersonAddress(people(PeopleQuery(name)));
      if Truthy(fromPeople) then fromPeople else None
  }

  /** The directory queries issued for `name`: people are searched only when contacts gave no address. */
  function LookupsFor(name: string, contacts: ContactsSearch): seq<Lookup> {
    var first := ContactsLookup(ContactsFilter(name), ContactsSelect);
    if Truthy(FirstContactAddress(contacts(ContactsFilter(name)))) then [first]
    else [first, PeopleLookup(PeopleQuery(name))]
  }

  /**
   Sends a mail to the person named `toRecipientByName`. The name is stripped,
   looked up in the contacts and then, failing that, among people; with an
   address the mail goes out as by `SendEmail`, without one nothing is sent and
   the status says so.
   */
  function SendEmailByName(
    subject: string, bodyHtml: string, toRecipientByName: string,
    contacts: ContactsSearch, people: PeopleSearch): (e: Effects)
    ensures var name := Strip(toRecipientByName);
      && 1 <= |e.lookups| <= 2
      && e.lookups[0] == ContactsLookup(ContactsFilter(name), ContactsSelect)
      && (|e.lookups| == 2 <==> !Truthy(FirstContactAddress(contacts(ContactsFilter(name)))))
      && (|e.lookups| == 2 ==> e.lookups[1] == PeopleLookup(PeopleQuery(name)))
    ensures var name := Strip(toRecipientByName);
      match ResolveRecipient(name, contacts, people)
      case None => e.posted == [] && e.status == NotFoundStatus(name)
      case Some(address) =>
        && e.posted == SendEmail(subject, bodyHtml, address).posted
        && e.status == SendEmail(subject, bodyHtml, address).status
        && |e.posted| == 1
        && e.posted[0].toRecipients == [Recipient(address)]
        && e.posted[0].subject == subject
        && e.posted[0].body == ItemBody(bodyHtml, "html")
        && e.posted[0].saveToSentItems
        && e.status == SentStatus
  {
    var name := Strip(toRecipientByName);
    var lookups := LookupsFor(name, contacts);
    match ResolveRecipient(name, contacts, people)
    case None => Effects(lookups, [], NotFoundStatus(name))
    case Some(address) =>
      var sent := SendEmail(subject, bodyHtml, address);
      Effects(lookups, sent.posted, sent.status)
  }

  /** Nothing is posted exactly when the status is a not-found status, and that status names the stripped name. */
  lemma NothingSentIffNotFound(
    subject: string, bodyHtml: string, toRecipientByName: string,
    contacts: ContactsSearch, people: PeopleSearch)
    ensures var e := SendEmailByName(subject, bodyHtml, toRecipientByName, contacts, people);
      && (e.posted == [] <==> NameOfNotFound(e.status).Some?)
      && (e.posted == [] ==> NameOfNotFound(e.status) == Some(Strip(toRecipientByName)))
  {
    NotFoundStatusRoundTrip(Strip(toRecipientByName));
  }

  /** When a contact supplies an address, the people search is never consulted: its answer cannot matter. */
  lemma ContactsShadowPeople(
    subject: string, bodyHtml: string, toRecipientByName: string,
    contacts: ContactsSearch, people1: PeopleSearch, people2: PeopleSearch)
    requires Truthy(FirstContactAddress(contacts(ContactsFilter(Strip(toRecipientByName)))))
    ensures SendEmailByName(subject, bodyHtml, toRecipientByName, contacts, people1)
         == SendEmailByName(subject, bodyHtml, toRecipientByName, contacts, people2)
    ensures |SendEmailByName(subject, bodyHtml, toRecipientByName, contacts, people1).lookups| == 1
  {
  }

  /** Whitespace around the name changes nothing: every query and the status use the stripped name. */
  lemma SendByNameIgnoresPadding(
    subject: string, bodyHtml: string, pre: string, name: string, post: string,
    contacts: ContactsSearch, people: PeopleSearch)
    requires AllSpace(pre) && AllSpace(post)
    ensures SendEmailByName(subject, bodyHtml, pre + name + post, contacts, people)
         == SendEmailByName(subject, bodyHtml, name, contacts, people)
  {
    StripIgnoresPadding(pre, name, post);
  }

  /** A mail that goes out goes to one address, taken from a contact or from a person found for the name. */
  lemma SentMailGoesToFoundAddress(
    subject: string, bodyHtml: string, toRecipientByName: string,
    contacts: ContactsSearch, people: PeopleSearch)
    ensures var e := SendEmailByName(subject, bodyHtml, toRecipientByName, contacts, people);
      var name := Strip(toRecipientByName);
      e.posted != [] ==>
        && |e.posted[0].toRecipients| == 1
        && var a := Some(e.posted[0].toRecipients[0].address);
        && Truthy(a)
        && (a == FirstContactAddress(contacts(ContactsFilter(name)))
            || a == FirstPersonAddress(people(PeopleQuery(name))))
  {
  }

  // ------------------------------------------------------- reading mail

  type Bytes = seq<bv8>

  /** An attachment as listed on a fetched message. */
  datatype Attachment = Attachment(id: string, name: Option<string>, size: int)

  /** A message as Graph returns it; a missing attachment list is the empty list. */
  datatype GraphMessage = GraphMessage(
    id: string,
    fromAddress: Option<string>,
    fromName: Option<string>,
    subject: Option<string>,
    bodyHtml: string,
    received: int,
    attachments: seq<Attachment>)

  datatype AttachmentRecord = AttachmentRecord(name: Option<string>, size: int, fileBytes: Bytes)

  /** One e-mail as the toolkit reports it; `attachments` is the optional dictionary key. */
  datatype EmailRecord = EmailRecord(
    from: string,
    subject: string,
    body: string,
    receivedDateTime: string,
    attachments: Option<seq<AttachmentRecord>>)

  /** The Graph list-messages query. */
  datatype MessagesQuery = MessagesQuery(
    select: seq<string>,
    top: int,
    skip: int,
    filter: string,
    expand: Option<seq<string>>)

  const DefaultLimit: int := 5
  const DefaultSkip: int := 0
  const DefaultFilter: string := "parentFolderId eq 'inbox'"

  /** Graph's answer to a list-messages query. */
  type MessagesFetch = MessagesQuery -> seq<GraphMessage>
  /** HTML-to-text extraction of a body. */
  type HtmlText = string -> string
  /** Rendering of a received instant in Berlin time. */
  type BerlinTime = int -> string
  /** Graph's answer to downloading attachment `id` of message `messageId`. */
  type Download = (string, string) -> Bytes

  /** The list-messages query: attachments are expanded only when they are asked for. */
  function EmailsQuery(limit: int, skip: int, filter: string, returnAttachments: bool): (q: MessagesQuery)
    ensures q.top == limit && q.skip == skip && q.filter == filter
    ensures q.expand.Some? <==> returnAttachments
    ensures returnAttachments ==> q.expand == Some(["attachments"])
  {
    MessagesQuery(["subject", "from", "receivedDateTime", "body"], limit, skip, filter,
                  if returnAttachments then Some(["attachments"]) else None)
  }

  /** Python's `str()` of a string-or-`None` value inside an f-string. */
  function PyStr(a: Option<string>): string {
    a.GetOr("None")
  }

  /** The record of one attachment, with its bytes downloaded. */
  function ShapeAttachment(a: Attachment, messageId: string, download: Download): AttachmentRecord {
    AttachmentRecord(a.name, a.size, download(a.id, messageId))
  }

  /** The record of one fetched message. */
  function ShapeEmail(
    m: GraphMessage, returnAttachments: bool,
    htmlText: HtmlText, berlinTime: BerlinTime, download: Download): (r: EmailRecord)
    ensures r.subject == "" <==> m.subject.None? || m.subject == Some("")
    ensures r.subject != "" ==> m.subject == Some(r.subject)
    ensures r.from == PyStr(m.fromAddress) + " - " + PyStr(m.fromName)
    ensures r.body == htmlText(m.bodyHtml) && r.receivedDateTime == berlinTime(m.received)
    ensures r.attachments.Some? <==> returnAttachments
    ensures r.attachments.Some? ==>
      && |r.attachments.value| == |m.attachments|
      && forall k :: 0 <= k < |m.attachments| ==>
           r.attachments.value[k] == ShapeAttachment(m.attachments[k], m.id, download)
  {
    var from := PyStr(m.fromAddress) + " - " + PyStr(m.fromName);
    var attachments :=
      if returnAttachments
      then Some(seq(|m.attachments|, k requires 0 <= k < |m.attachments| =>
                      ShapeAttachment(m.attachments[k], m.id, download)))
      else None;
    EmailRecord(from, m.subject.GetOr(""), htmlText(m.bodyHtml), berlinTime(m.received), attachments)
  }

  /** Without attachments asked for, nothing is downloaded: the records do not depend on the download answers. */
  lemma NoDownloadWithoutAttachments(
    m: GraphMessage, htmlText: HtmlText, berlinTime: BerlinTime, d1: Download, d2: Download)
    ensures ShapeEmail(m, false, htmlText, berlinTime, d1) == ShapeEmail(m, false, htmlText, berlinTime, d2)
  {
  }

  /**
   Lists e-mails: queries Graph once and returns one record per fetched
   message, in the order Graph returned them.
   */
  method GetEmails(
    limit: int, skip: int, filter: string, returnAttachments: bool,
    fetch: MessagesFetch, htmlText: HtmlText, berlinTime: BerlinTime, download: Download)
    returns (records: seq<EmailRecord>)
    ensures var fetched := fetch(EmailsQuery(limit, skip, filter, returnAttachments));
      && |records| == |fetched|
      && forall i :: 0 <= i < |fetched| ==>
           records[i] == ShapeEmail(fetched[i], returnAttachments, htmlText, berlinTime, download)
    ensures forall i :: 0 <= i < |records| ==> (records[i].attachments.Some? <==> returnAttachments)
  {
    var fetched := fetch(EmailsQuery(limit, skip, filter, returnAttachments));
    records := [];
    var i := 0;
    while i < |fetched|
      invariant 0 <= i <= |fetched|
      invariant |records| == i
      invariant forall k :: 0 <= k < i ==>
        records[k] == ShapeEmail(fetched[k], returnAttachments, htmlText, berlinTime, download)
    {
      records := records + [ShapeEmail(fetched[i], returnAttachments, htmlText, berlinTime, download)];
      i := i + 1;
    }
  }

  /**
   Lists e-mails with every argument at its default: the five latest inbox
   messages from the start, without attachments.
   */
  method GetEmailsByDefault(
    fetch: MessagesFetch, htmlText: HtmlText, berlinTime: BerlinTime, download: Download)
    returns (records: seq<EmailRecord>)
    ensures var fetched := fetch(MessagesQuery(["subject", "from", "receivedDateTime", "body"],
                                               5, 0, "parentFolderId eq 'inbox'", None));
      && |records| == |fetched|
      && forall i :: 0 <= i < |fetched| ==>
           records[i] == ShapeEmail(fetched[i], false, htmlText, berlinTime, download)
    ensures forall i :: 0 <= i < |records| ==> records[i].attachments.None?
  {
    records := GetEmails(DefaultLimit, DefaultSkip, DefaultFilter, false, fetch, htmlText, berlinTime, download);
  }

  // ---------------------------------------------------------- the tools

  /** The toolkit's methods a tool can be bound to. */
  datatype Operation = ReadEmails | SendToAddress | SendToName | FetchAttachment | ListTools

  /** The toolkit's methods by attribute name: the lookup that binds a tool to its code. */
  const ToolkitMethods: map<string, Operation> := map[
    "aget_emails" := ReadEmails,
    "asend_email" := SendToAddress,
    "asend_email_by_name" := SendToName,
    "download_attachment" := FetchAttachment,
    "get_tools" := ListTools]

  /** One entry of the schema mapping: the tool's description and input schema. */
  datatype SchemaEntry = SchemaEntry(description: string, inputSchema: Schema)

  /** A built tool: what the model sees, and the method it runs. */
  datatype Tool = Tool(spec: ToolSpec, operation: Operation)

  /** Python's error for binding a name the toolkit has no method for. */
  function AttributeError(key: string): string {
    "'MSEmailToolKit' object has no attribute '" + key + "'"
  }

  /** The tool built from one schema-mapping entry. */
  function ToolFor(key: string, entry: SchemaEntry): Tool
    requires key in ToolkitMethods
  {
    Tool(ToolSpec(key, entry.description, entry.inputSchema), ToolkitMethods[key])
  }

  /** The position of the first mapping key that names no toolkit method. */
  function FirstUnbound(mappings: seq<(string, SchemaEntry)>): (r: Option<nat>)
    ensures r.Some? ==>
      && r.value < |mappings|
      && mappings[r.value].0 !in ToolkitMethods
      && forall j :: 0 <= j < r.value ==> mappings[j].0 in ToolkitMethods
    ensures r.None? ==> forall i :: 0 <= i < |mappings| ==> mappings[i].0 in ToolkitMethods
  {
    if |mappings| == 0 then None
    else if mappings[0].0 !in ToolkitMethods then Some(0)
    else
      match FirstUnbound(mappings[1..])
      case None => None
      case Some(i) => Some(i + 1)
  }

  /**
   Builds one tool per schema-mapping entry, in mapping order, each named by
   its key and described by its entry; the first key that names no method
   aborts the whole build with that key's binding error.
   */
  function GetTools(mappings: seq<(string, SchemaEntry)>): (r: Result<seq<Tool>, string>)
    ensures r.Ok? <==> forall i :: 0 <= i < |mappings| ==> mappings[i].0 in ToolkitMethods
    ensures r.Ok? ==>
      && |r.value| == |mappings|
      && forall i :: 0 <= i < |mappings| ==>
           && r.value[i].spec.name == mappings[i].0
           && r.value[i].spec.description == mappings[i].1.description
           && r.value[i].spec.inputSchema == mappings[i].1.inputSchema
           && r.value[i].operation == ToolkitMethods[mappings[i].0]
    ensures r.Err? <==> FirstUnbound(mappings).Some?
    ensures r.Err? ==> r.error == AttributeError(mappings[FirstUnbound(mappings).value].0)
  {
    if |mappings| == 0 then Ok([])
    else if mappings[0].0 !in ToolkitMethods then Err(AttributeError(mappings[0].0))
    else
      match GetTools(mappings[1..])
      case Err(e) => Err(e)
      case Ok(rest) => Ok([ToolFor(mappings[0].0, mappings[0].1)] + rest)
  }

  /** A Python dictionary never repeats a key. */
  predicate DistinctKeys(mappings: seq<(string, SchemaEntry)>) {
    forall i, j :: 0 <= i < j < |mappings| ==> mappings[i].0 != mappings[j].0
  }

  /** The first tool called `name`. */
  function FindTool(tools: seq<Tool>, name: string): Option<Tool> {
    if |tools| == 0 then None
    else if tools[0].spec.name == name then Some(tools[0])
    else FindTool(tools[1..], name)
  }

  /**
   The registry answers by name: looking up a mapping key finds the tool built
   from that key's entry, and looking up any other name finds nothing.
   */
  lemma {:induction false} RegistryFindsEntry(mappings: seq<(string, SchemaEntry)>, name: string)
    requires DistinctKeys(mappings)
    requires GetTools(mappings).Ok?
    ensures forall i :: 0 <= i < |mappings| && mappings[i].0 == name ==>
      FindTool(GetTools(mappings).value, name) == Some(ToolFor(mappings[i].0, mappings[i].1))
    ensures (forall i :: 0 <= i < |mappings| ==> mappings[i].0 != name) ==>
      FindTool(GetTools(mappings).value, name) == None
  {
    if |mappings| > 0 {
      var tools := GetTools(mappings).value;
      var rest := mappings[1..];
      assert DistinctKeys(rest) by {
        forall i, j | 0 <= i < j < |rest| ensures rest[i].0 != rest[j].0 {
          assert rest[i] == mappings[i + 1] && rest[j] == mappings[j + 1];
        }
      }
      assert GetTools(mappings) == Ok([ToolFor(mappings[0].0, mappings[0].1)] + GetTools(rest).value);
      assert tools[1..] == GetTools(rest).value;
      RegistryFindsEntry(rest, name);
      forall i | 0 < i < |mappings| && mappings[i].0 == name
        ensures FindTool(tools, name) == Some(ToolFor(mappings[i].0, mappings[i].1))
      {
        assert rest[i - 1] == mappings[i];
      }
    }
  }
}

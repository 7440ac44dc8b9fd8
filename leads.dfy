/**
 * `POST /api/leads`: the lead is stored in the "lead" collection, and when
 * a HubSpot key is configured a contact-creation request is sent to the
 * CRM. That request is fire-and-forget: its answer and any error it raises
 * are ignored, so the model returns the request the route would send and
 * leaves the sending out.
 */
module Leads {
  import opened Common
  import opened Collections
  import opened Schemas
  import opened Store

  const ContactsUrl: string := "https://api.hubapi.com/crm/v3/objects/contacts"
  const BearerPrefix: string := "Bearer "
  const JsonContentType: string := "application/json"
  const LeadStage: string := "lead"
  /** Seconds the CRM request may take. */
  const RequestTimeout: nat := 5
  const ReceivedStatus: string := "received"

  /** The `properties` object of the CRM payload. */
  datatype ContactProperties = ContactProperties(email: string, firstname: string, phone: string,
                                                 lifecyclestage: string, notes: string)

  /** The CRM request: where it goes, its two headers, its payload and its timeout. */
  datatype ContactRequest = ContactRequest(url: string, authorization: string, contentType: string,
                                           properties: ContactProperties, timeout: nat)

  /** The route's answer: `{"id": lead_id, "status": "received"}`. */
  datatype LeadReceipt = LeadReceipt(id: nat, status: string)

  /** Python's `value or ""` on an optional string. */
  function OrEmpty(value: Option<string>): string
  {
    if value.Some? then value.value else ""
  }

  /** The contact the CRM is asked to create for a lead. */
  function ContactPropertiesOf(lead: Lead): ContactProperties
  {
    ContactProperties(lead.email, lead.name, OrEmpty(lead.phone), LeadStage, OrEmpty(lead.projectDetails))
  }

  /**
   * The payload carries the lead's email and name unchanged, stage "lead",
   * and its phone and project details: empty exactly when the lead has none
   * (or an empty one), and otherwise the lead's own value.
   */
  lemma ContactPropertiesCarryLead(lead: Lead)
    ensures var p := ContactPropertiesOf(lead);
            && p.email == lead.email && p.firstname == lead.name && p.lifecyclestage == LeadStage
            && (p.phone == "" <==> lead.phone.None? || lead.phone == Some(""))
            && (p.phone != "" ==> lead.phone == Some(p.phone))
            && (p.notes == "" <==> lead.projectDetails.None? || lead.projectDetails == Some(""))
            && (p.notes != "" ==> lead.projectDetails == Some(p.notes))
  {
  }

  /** The `Authorization` header for a key: the key after "Bearer ", recoverable from the header. */
  function Authorization(key: string): (header: string)
    ensures |header| == |BearerPrefix| + |key|
    ensures header[..|BearerPrefix|] == BearerPrefix && header[|BearerPrefix|..] == key
  {
    BearerPrefix + key
  }

  /** The request the route sends to the CRM for a lead, with a given key. */
  function ContactRequestFor(lead: Lead, key: string): ContactRequest
  {
    ContactRequest(ContactsUrl, Authorization(key), JsonContentType, ContactPropertiesOf(lead), RequestTimeout)
  }

  /**
   * The CRM request a stored lead triggers: one exactly when the
   * `HUBSPOT_API_KEY` setting is present and non-empty, carrying that key.
   */
  function CrmNotification(lead: Lead, hubspotKey: Option<string>): (notification: Option<ContactRequest>)
    ensures notification.Some? <==> Truthy(hubspotKey)
    ensures notification.Some? ==>
              && notification.value.url == ContactsUrl
              && notification.value.authorization == BearerPrefix + hubspotKey.value
              && notification.value.contentType == JsonContentType
              && notification.value.properties == ContactPropertiesOf(lead)
              && notification.value.timeout == RequestTimeout
  {
    if Truthy(hubspotKey) then Some(ContactRequestFor(lead, hubspotKey.value)) else None
  }

  /**
   * `create_lead`: the lead is inserted into "lead". When the insert
   * succeeds the route answers the new identifier with status "received"
   * and sends the CRM request if a key is configured; when the insert
   * fails the store's error is answered with 500 and nothing is sent.
   */
  method CreateLead(store: DocumentStore, lead: Lead, hubspotKey: Option<string>)
    returns (r: Response<LeadReceipt>, notification: Option<ContactRequest>)
    modifies store
    ensures store.calls == old(store.calls) + 1
    ensures Fault(store.outcomes, old(store.calls)).None? ==>
              && r == Ok(LeadReceipt(|old(store.inserts)|, ReceivedStatus))
              && store.inserts == old(store.inserts) + [(CollectionName(Leads), LeadEntry(lead))]
              && notification == CrmNotification(lead, hubspotKey)
    ensures Fault(store.outcomes, old(store.calls)).Some? ==>
              && r == HttpError(ServerErrorStatus, Fault(store.outcomes, old(store.calls)).value)
              && store.inserts == old(store.inserts)
              && notification.None?
  {
    var created := store.CreateDocument(CollectionName(Leads), LeadEntry(lead));
    if created.Failure? {
      return HttpError(ServerErrorStatus, created.error), None;
    }
    notification := CrmNotification(lead, hubspotKey);
    r := Ok(LeadReceipt(created.value, ReceivedStatus));
  }
}

/**
  The records the quotation components share: catalog services and their
  subservices, the payload a service card hands over when a row is confirmed,
  the registry entries the application keeps, the client record, the template
  descriptors and the steps of the wizard.
*/
module DataModel {
  import opened Values

  /**
    A catalog subservice. Every catalog record carries a numeric official fee.
    ident stands for the record's object identity: two records are the same
    object exactly when their idents agree, and `===` on subservices compares
    nothing else.
  */
  datatype Subservice = Subservice(ident: nat, name: string, officialFee: real)

  /** A catalog service: an id, a display name and its ordered subservices. */
  datatype Service = Service(id: string, name: string, subservices: seq<Subservice>)

  /** The pair that identifies a selection: `service.id` and `subservice.name`. */
  datatype Key = Key(serviceId: string, subserviceName: string)

  /**
    What a service card passes to `onSelectSubservice` when a row is confirmed:
    the subservice spread with the fee properties set. A property the caller
    left out is None.
  */
  datatype Confirmation = Confirmation(
    sub: Subservice,
    officialFee: Option<real>,
    professionalFee: Option<real>,
    reimbursement: Option<real>,
    miscFee: Option<real>,
    total: Option<real>)

  /** A registry entry of the application: the service, the confirmed subservice and the four fees. */
  datatype Entry = Entry(
    service: Service,
    subservice: Confirmation,
    total: real,
    officialFee: real,
    professionalFee: real,
    miscFee: real)

  /**
    A selection entry of the three-step flow: the service, the catalog
    subservice it was selected with, and the properties later fee edits set.
  */
  datatype FlowEntry = FlowEntry(service: Service, subservice: Subservice, fields: map<string, Value>)

  /** The client-detail form's fields, read as opaque strings. */
  datatype ClientRecord = ClientRecord(
    clientName: string,
    clientAddress: string,
    clientEmail: string,
    clientPhone: string)

  /** A template descriptor: the label (`label` in the source) shown on buttons and file names, and the fixed terms. */
  datatype Template = Template(labelText: string, terms: seq<string>, footer: string)

  /** The wizard steps: services, client details, summary. */
  datatype Step = Services | Client | Summary

  function KeyOf(service: Service, sub: Subservice): Key
  {
    Key(service.id, sub.name)
  }

  function EntryKey(e: Entry): Key
  {
    Key(e.service.id, e.subservice.sub.name)
  }

  /** Whether a flow entry is for the (service id, subservice name) pair of service and sub. */
  predicate FlowMatches(e: FlowEntry, service: Service, sub: Subservice)
  {
    e.service.id == service.id && e.subservice.name == sub.name
  }

  /** The category of an entry: its service id, lower-cased. */
  function CategoryOf(e: Entry): string
  {
    ToLower(e.service.id)
  }

  /** A confirmation whose total is the sum of its three fee components. */
  predicate ConfirmationConsistent(c: Confirmation)
  {
    && c.officialFee.Some? && c.professionalFee.Some? && c.miscFee.Some?
    && c.total == Some(c.officialFee.value + c.professionalFee.value + c.miscFee.value)
  }

  /** An entry whose total is the sum of its three fee components. */
  predicate EntryConsistent(e: Entry)
  {
    e.total == e.officialFee + e.professionalFee + e.miscFee
  }

  /** No two entries share a (service id, subservice name) pair. */
  predicate NoDuplicateKeys(list: seq<Entry>)
  {
    forall i, j :: 0 <= i < j < |list| ==> EntryKey(list[i]) != EntryKey(list[j])
  }

  /** The template descriptors, keyed by category (templateData.js). */
  const TemplateOptions: map<string, Template> := map[
    "allip" := Template("All IP Quotation", [
      "Payment shall be made in stages as work progresses",
      "GST @18% will be charged on professional fees",
      "TDS @10% will be deducted as per government regulations",
      "Any additional government fees will be billed separately",
      "This quotation is valid for 30 days from the date of issue"],
      "Lextria Research - Your trusted IP partner"),
    "patent" := Template("Patent Quotation", [
      "Includes patent search and filing for one application",
      "Response to examination report billed separately if required",
      "Hearing attendance costs will be quoted separately if needed",
      "GST @18% applicable on professional fees",
      "Additional claims may incur extra charges"],
      "Lextria Research - Patent Specialists"),
    "trademark" := Template("Trademark Quotation", [
      "Includes trademark search and filing for one class",
      "Additional classes will be charged separately",
      "Response to objections billed as additional service",
      "GST @18% applicable on professional fees",
      "Opposition proceedings not included in this quotation"],
      "Lextria Research - Trademark Experts"),
    "design" := Template("Design Quotation", [
      "Includes design search and filing for one application",
      "Response to examination report billed separately if required",
      "Hearing attendance costs will be quoted separately if needed",
      "GST @18% applicable on professional fees",
      "Multiple designs will be charged separately"],
      "Lextria Research - Design Protection Specialists"),
    "copyright" := Template("Copyright Quotation", [
      "Includes copyright filing for one work",
      "Response to objections billed separately if required",
      "GST @18% applicable on professional fees",
      "Additional documentation may require separate charges",
      "Registration timeline subject to government processing times"],
      "Lextria Research - Copyright Services")
  ]

  /**
    Two catalog services, as fixtures for the worked examples (services.js).
    Each catalog record is its own object, so the idents run through both.
  */
  const AllIp: Service := Service("ip", "All IP", [
    Subservice(0, "Patent searching with written opinion (Optional)", 0.0),
    Subservice(1, "Patent searching with oral opinion, Provisional specification drafting, filing", 1600.0),
    Subservice(2, "Complete specification drafting, filing and request for early publication", 6500.0),
    Subservice(3, "Response to Examination", 0.0),
    Subservice(4, "Attending hearing and filing written submission", 0.0)])

  const Patent: Service := Service("patent", "Patent", [
    Subservice(5, "Patent searching with written opinion (Optional)", 0.0),
    Subservice(6, "Provisional specification drafting and filing", 1600.0),
    Subservice(7, "Complete specification and expedited examination", 6500.0),
    Subservice(8, "Response to Examination Report", 0.0),
    Subservice(9, "Hearing attendance and written submission", 0.0)])
}

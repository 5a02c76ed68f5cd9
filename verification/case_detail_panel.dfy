/**
 * The case detail panel's status rules: the badge variant and the colour
 * classes chosen from a status text, and the header that a closed panel
 * does not render.
 */
module CaseDetailPanel {
  import opened Wrappers
  import opened Text

  /** The badge variants the panel uses. */
  datatype Variant = Default | Secondary | Outline | Destructive

  const Green := "bg-green-100 text-green-800 border-green-200"
  const Blue := "bg-blue-100 text-blue-800 border-blue-200"
  const Yellow := "bg-yellow-100 text-yellow-800 border-yellow-200"
  const Red := "bg-red-100 text-red-800 border-red-200"
  const Grey := "bg-gray-100 text-gray-800 border-gray-200"

  /** Statuses of finished work. */
  predicate Finished(key: string)
  {
    key == "completado" || key == "procesado" || key == "resuelto"
  }

  /** Statuses of work under way. */
  predicate Ongoing(key: string)
  {
    key == "en progreso" || key == "programada"
  }

  /** `getStatusBadgeVariant`: a switch on the lower-cased status. */
  function BadgeVariant(status: string): (v: Variant)
    ensures v == Default <==> Finished(Lower(status))
    ensures v == Secondary <==> Ongoing(Lower(status))
    ensures v == Destructive <==> Lower(status) == "urgente"
    ensures v == Outline <==> !Finished(Lower(status)) && !Ongoing(Lower(status)) && Lower(status) != "urgente"
  {
    var key := Lower(status);
    if Finished(key) then Default
    else if Ongoing(key) then Secondary
    else if key == "pendiente" then Outline
    else if key == "urgente" then Destructive
    else Outline
  }

  /** `getStatusColor`: the same switch, choosing the colour classes. */
  function StatusColor(status: string): (c: string)
    ensures c == Green <==> Finished(Lower(status))
    ensures c == Blue <==> Ongoing(Lower(status))
    ensures c == Yellow <==> Lower(status) == "pendiente"
    ensures c == Red <==> Lower(status) == "urgente"
    ensures c == Grey <==>
      !Finished(Lower(status)) && !Ongoing(Lower(status)) && Lower(status) != "pendiente" && Lower(status) != "urgente"
  {
    var key := Lower(status);
    if Finished(key) then Green
    else if Ongoing(key) then Blue
    else if key == "pendiente" then Yellow
    else if key == "urgente" then Red
    else Grey
  }

  /** Both rules ignore the case of the ASCII letters. */
  lemma CaseInsensitive(status: string)
    ensures BadgeVariant(Lower(status)) == BadgeVariant(status)
    ensures StatusColor(Lower(status)) == StatusColor(status)
  {
    LowerIdempotent(status);
  }

  /**
   * The two rules agree: each variant other than `outline` has exactly one
   * colour, and `outline` is yellow for pending work and grey otherwise.
   */
  lemma VariantAndColourAgree(status: string)
    ensures BadgeVariant(status) == Default <==> StatusColor(status) == Green
    ensures BadgeVariant(status) == Secondary <==> StatusColor(status) == Blue
    ensures BadgeVariant(status) == Destructive <==> StatusColor(status) == Red
    ensures BadgeVariant(status) == Outline <==> StatusColor(status) == Yellow || StatusColor(status) == Grey
  {
  }

  /** A status is not trimmed: surrounding spaces fall through to the default. */
  lemma SpacesNotTrimmed()
    ensures BadgeVariant(" urgente") == Outline && StatusColor(" urgente") == Grey
  {
    assert Lower(" urgente")[0] == ' ';
  }

  /** Capitalised statuses map like their lower-case forms. */
  lemma CapitalisedStatuses()
    ensures BadgeVariant("Completado") == Default && StatusColor("Completado") == Green
    ensures BadgeVariant("Pendiente") == Outline && StatusColor("Pendiente") == Yellow
  {
    assert Lower("Completado") == "completado";
    assert Lower("Pendiente") == "pendiente";
  }

  /** The case shown by the panel. */
  datatype CaseData = CaseData(id: string, title: string, clientName: string, status: string,
                               partyA: string, partyB: string, matter: string)

  /** A status badge: its text, variant and colour classes. */
  datatype Badge = Badge(text: string, variant: Variant, color: string)

  /** The header the panel renders: the parties line, the client and the status badge. */
  datatype Header = Header(parties: string, clientName: string, badge: Badge)

  /** The panel's header, or nothing when the panel is closed. */
  function Render(isOpen: bool, data: CaseData): (r: Option<Header>)
    ensures r.None? <==> !isOpen
    ensures r.Some? ==> r.value.badge.text == data.status && r.value.clientName == data.clientName
    ensures r.Some? ==> r.value.badge.variant == BadgeVariant(data.status) && r.value.badge.color == StatusColor(data.status)
  {
    if !isOpen then None
    else Some(Header(data.partyA + " c/ " + data.partyB + " s/ " + data.matter, data.clientName,
                     Badge(data.status, BadgeVariant(data.status), StatusColor(data.status))))
  }
}

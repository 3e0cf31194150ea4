/** The status badge's lookup table: label, colours and icon per status. */
module StatusBadge {
  import opened Wrappers
  import opened Database
  import opened JsString
  import Utils

  datatype Icon = CheckIcon

  datatype BadgeConfig = BadgeConfig(labelText: string, dotColor: string, textColor: string, icon: Option<Icon>)

  /** `statusConfig[status]` */
  function StatusConfig(status: Status): (config: BadgeConfig)
    ensures config.icon.Some? <==> status == Paid
    ensures config.dotColor == Utils.GetStatusDotColor(status)
  {
    match status
    case Draft => BadgeConfig("Draft", "bg-orange-500", "text-orange-600", None)
    case Sent => BadgeConfig("Pending", "bg-blue-500", "text-blue-600", None)
    case Paid => BadgeConfig("Paid", "bg-green-500", "text-green-600", Some(CheckIcon))
    case Overdue => BadgeConfig("Overdue", "bg-red-500", "text-red-600", None)
    case Cancelled => BadgeConfig("Cancelled", "bg-gray-400", "text-gray-500", None)
  }

  /** What the badge draws before its label: the icon in the text colour, or a dot. */
  datatype Marker = IconMarker(icon: Icon, color: string) | DotMarker(color: string)

  function BadgeMarker(status: Status): (m: Marker)
    ensures m.IconMarker? <==> status == Paid
    ensures m.DotMarker? ==> m.color == Utils.GetStatusDotColor(status)
  {
    var config := StatusConfig(status);
    match config.icon
    case Some(icon) => IconMarker(icon, config.textColor)
    case None => DotMarker(config.dotColor)
  }

  function Capitalized(s: string): (r: string) {
    if s == [] then [] else [UpperChar(s[0])] + s[1..]
  }

  /** `sent` reads "Pending"; every other label is the capitalised status name. */
  lemma LabelsAreCapitalizedNames(status: Status)
    ensures StatusConfig(status).labelText
         == if status == Sent then "Pending" else Capitalized(StatusName(status))
  {
  }

  /** No two statuses share a label. */
  lemma LabelsDistinct(s: Status, t: Status)
    requires s != t
    ensures StatusConfig(s).labelText != StatusConfig(t).labelText
  {
  }

  /** The badge's dot colour is the one the shared status helper gives. */
  lemma DotColorsAgreeWithUtils(status: Status)
    ensures StatusConfig(status).dotColor == Utils.GetStatusDotColor(status)
  {
  }
}

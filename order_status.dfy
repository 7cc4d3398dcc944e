/**
 * Order statuses: the options and icons of the form's status buttons, and the
 * colour and icon of the status badge in the orders table.
 */
module OrderStatus {
  import opened Wrappers

  /** The options of the status toggle buttons, value to label. */
  const FormStatusOptions: map<string, string> := map[
    "pending" := "pending",
    "processing" := "processing",
    "completed" := "completed",
    "declined" := "declined"]

  /** The icons of the status toggle buttons. */
  const FormStatusIcons: map<string, string> := map[
    "pending" := "heroicon-o-exclamation-circle",
    "processing" := "heroicon-o-arrow-path",
    "completed" := "heroicon-o-check-circle",
    "declined" := "heroicon-o-x-circle"]

  /** A PHP `match` given a value none of its arms names throws this. */
  datatype MatchError = UnhandledMatch(subject: string)

  /**
   * The badge colour of a status in the orders table. Exactly the statuses the
   * form offers have one; any other status makes the `match` throw.
   */
  function StatusColor(state: string): (r: Result<string, MatchError>)
    ensures r.Ok? <==> state in FormStatusOptions
    ensures r.Err? ==> r.error == UnhandledMatch(state)
  {
    match state
    case "pending" => Ok("gray")
    case "processing" => Ok("warning")
    case "completed" => Ok("success")
    case "declined" => Ok("danger")
    case _ => Err(UnhandledMatch(state))
  }

  /**
   * The badge icon of a status in the orders table: for each status the form
   * offers, the icon of its toggle button; any other status makes the `match` throw.
   */
  function StatusIcon(state: string): (r: Result<string, MatchError>)
    ensures r.Ok? <==> state in FormStatusIcons
    ensures r.Ok? ==> r.value == FormStatusIcons[state]
    ensures r.Err? ==> r.error == UnhandledMatch(state)
  {
    match state
    case "pending" => Ok("heroicon-o-exclamation-circle")
    case "processing" => Ok("heroicon-o-arrow-path")
    case "completed" => Ok("heroicon-o-check-circle")
    case "declined" => Ok("heroicon-o-x-circle")
    case _ => Err(UnhandledMatch(state))
  }

  /**
   * Every status the form can store is shown in the table with an icon and a
   * colour, and distinct statuses get distinct colours.
   */
  lemma FormStatusesRenderInTable(s: string, t: string)
    requires s in FormStatusOptions && t in FormStatusOptions
    ensures s in FormStatusIcons && StatusIcon(s).Ok? && StatusColor(s).Ok?
    ensures s != t ==> StatusColor(s) != StatusColor(t)
  {
  }
}

/**
 * The status pill of `src/components/StatusBadge.jsx`: the class list is
 * built from a colour class for the status and a size class for the size.
 */
module StatusBadge {
  import opened Js

  const DefaultSize := "md"
  const BaseClasses := "inline-flex items-center rounded-full border "

  /** `getStatusColor`: each known status has its own class; anything else looks closed. */
  function StatusColor(status: string): (r: string)
    ensures status == "Pending" <==> r == "status-pending"
    ensures status == "In Review" <==> r == "status-review"
    ensures status == "Resolved" <==> r == "status-resolved"
    ensures status !in {"Pending", "In Review", "Resolved"} <==> r == "status-closed"
  {
    match status
    case "Pending" => "status-pending"
    case "In Review" => "status-review"
    case "Resolved" => "status-resolved"
    case "Closed" => "status-closed"
    case _ => "status-closed"
  }

  /** `getSizeClasses`: three sizes; anything unknown is sized like "md". */
  function SizeClasses(size: string): (r: string)
    ensures size == "sm" <==> r == "text-xs px-2 py-0.5"
    ensures size == "lg" <==> r == "text-base px-3 py-1"
    ensures size !in {"sm", "lg"} <==> r == "text-sm px-2.5 py-0.5"
  {
    match size
    case "sm" => "text-xs px-2 py-0.5"
    case "md" => "text-sm px-2.5 py-0.5"
    case "lg" => "text-base px-3 py-1"
    case _ => "text-sm px-2.5 py-0.5"
  }

  /** The rendered `<span>`: its class list and its text. */
  datatype Badge = Badge(className: string, text: string)

  /** `StatusBadge({status, size = 'md'})`. */
  function RenderBadge(status: string, size: Option<string>): (r: Badge)
    ensures r.text == status
    ensures r.className == BaseClasses + StatusColor(status) + " " + SizeClasses(Or(size, DefaultSize)) + " font-medium"
  {
    var sz := if size.Some? then size.value else DefaultSize;
    Badge(BaseClasses + StatusColor(status) + " " + SizeClasses(sz) + " font-medium", status)
  }

  /** An omitted size and any size other than "sm" and "lg" render exactly like "md". */
  lemma UnknownSizeIsMedium(status: string, size: string)
    requires size !in {"sm", "lg"}
    ensures RenderBadge(status, Some(size)) == RenderBadge(status, None) == RenderBadge(status, Some(DefaultSize))
  {
  }
}

/** frontend/src/utils/statusColor.ts: the badge classes for each trip status. */
module StatusColor {
  import opened Wrappers
  import opened Schema

  const Pink: string := "bg-pink-100 text-pink-600 hover:bg-pink-200 hover:text-pink-800 hover:transition-all hover:scale-110"
  const Purple: string := "bg-purple-100 text-purple-600 hover:bg-purple-200 hover:text-purple-800 hover:transition-all hover:scale-110"
  const Amber: string := "bg-amber-100 text-amber-600 hover:bg-amber-200 hover:text-amber-800 hover:transition-all hover:scale-110"
  const Emerald: string := "bg-emerald-100 text-emerald-600 hover:bg-emerald-200 hover:text-emerald-800 hover:transition-all hover:scale-110"

  /** `getStatusColor`: a switch without a default, so any other string gives `undefined`,
      here `None`. */
  function GetStatusColor(status: string): (r: Option<string>)
    ensures r.Some? <==> ParseTripStatus(status).Some?
  {
    match status
    case "WISHLIST" => Some(Pink)
    case "PLANNED" => Some(Purple)
    case "ORGANIZED" => Some(Amber)
    case "COMPLETED" => Some(Emerald)
    case _ => None
  }

  /** Every status the server stores has its own colour: WISHLIST pink, PLANNED purple,
      ORGANIZED amber, COMPLETED emerald. */
  lemma EveryStatusColored(t: TripStatus)
    ensures GetStatusColor(StatusName(t)) ==
              Some(match t
                   case WISHLIST => Pink
                   case PLANNED => Purple
                   case ORGANIZED => Amber
                   case COMPLETED => Emerald)
  {
  }

  /** Different statuses get different colours. */
  lemma ColorsDistinct(a: TripStatus, b: TripStatus)
    requires a != b
    ensures GetStatusColor(StatusName(a)) != GetStatusColor(StatusName(b))
  {
    assert |Pink| == 100 && |Purple| == 108 && |Amber| == 104 && |Emerald| == 112;
  }
}

/** The "My Bookings" list: status badge, status label and the cancel action. */
module BookingsPage {
  import opened Strings

  datatype StatusIcon = Clock | CheckCircle | Ban

  datatype Badge = Badge(color: string, icon: StatusIcon)

  const PendingBadge := Badge("bg-yellow-100 text-yellow-700 border-yellow-200", Clock)
  const ConfirmedBadge := Badge("bg-green-100 text-green-700 border-green-200", CheckCircle)
  const CancelledBadge := Badge("bg-red-100 text-red-700 border-red-200", Ban)
  const CompletedBadge := Badge("bg-blue-100 text-blue-700 border-blue-200", CheckCircle)

  /** The badge lookup table, keyed by booking status. */
  const Badges: map<string, Badge> := map[
    "pending" := PendingBadge,
    "confirmed" := ConfirmedBadge,
    "cancelled" := CancelledBadge,
    "completed" := CompletedBadge
  ]

  /** `badges[status] || badges.pending`: the table entry, or the pending badge for an unknown status. */
  function StatusBadge(status: string): (b: Badge)
    ensures status == "pending" ==> b == PendingBadge
    ensures status == "confirmed" ==> b == ConfirmedBadge
    ensures status == "cancelled" ==> b == CancelledBadge
    ensures status == "completed" ==> b == CompletedBadge
    ensures b == PendingBadge <==> status !in {"confirmed", "cancelled", "completed"}
  {
    if status in Badges then Badges[status] else PendingBadge
  }

  /** `status.charAt(0).toUpperCase() + status.slice(1)`. */
  function StatusLabel(status: string): (text: string)
    ensures |text| == |status|
    ensures status != [] ==> text[0] == UpperChar(status[0]) && text[1..] == status[1..]
  {
    if status == [] then [] else [UpperChar(status[0])] + status[1..]
  }

  /** The cancel button is rendered only for pending bookings. */
  predicate CancelOffered(status: string) {
    status == "pending"
  }

  /** The four known statuses get four different badges. */
  lemma KnownBadgesDistinct(s: string, t: string)
    requires s in Badges && t in Badges && s != t
    ensures StatusBadge(s) != StatusBadge(t)
  {
  }

  /**
   * A cancellable booking always shows the pending badge, but not conversely:
   * an unknown status looks pending and offers no cancel button.
   */
  lemma CancelImpliesPendingBadge(status: string)
    ensures CancelOffered(status) ==> StatusBadge(status) == PendingBadge
    ensures status !in Badges ==> StatusBadge(status) == PendingBadge && !CancelOffered(status)
    ensures !CancelOffered("confirmed") && !CancelOffered("cancelled") && !CancelOffered("completed")
  {
  }

  /** Lower-casing the label's first letter gives back a status that started in lower case. */
  lemma LabelLowersBack(status: string)
    requires status != [] && 'a' <= status[0] <= 'z'
    ensures [LowerChar(StatusLabel(status)[0])] + StatusLabel(status)[1..] == status
  {
  }
}

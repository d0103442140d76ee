/**
 * The provider's notification page
 * (frontend/src/pages/dashboard/provider/Notifications.jsx): relative time
 * labels, the split of the fetched list into category tabs, the unread
 * badges, the single expanded item and the action buttons' labels and
 * colours.
 */
module Notifications {
  import opened Wrappers
  import opened Js

  // ---------------------------------------------------------------------------
  // formatTime
  // ---------------------------------------------------------------------------

  /**
   * `formatTime`, given `now - date` in milliseconds. Dafny's `/` by a
   * positive divisor rounds down, as `Math.floor` does, also for a date in
   * the future (a negative difference).
   */
  function FormatTime(diffMs: int): (r: string)
    ensures diffMs / 1000 < 60 <==> r == "Just now"
    ensures var s := diffMs / 1000; 60 <= s < 3600 ==>
      exists k: nat :: 1 <= k < 60 && k * 60 <= s < (k + 1) * 60 && r == NatToString(k) + " min ago"
    ensures var s := diffMs / 1000; 3600 <= s < 86400 ==>
      exists k: nat :: 1 <= k < 24 && k * 3600 <= s < (k + 1) * 3600 && r == NatToString(k) + " hours ago"
    ensures var s := diffMs / 1000; 86400 <= s ==>
      exists k: nat :: 1 <= k && k * 86400 <= s < (k + 1) * 86400 && r == NatToString(k) + " days ago"
  {
    var diffInSeconds := diffMs / 1000;
    if diffInSeconds < 60 then "Just now"
    else if diffInSeconds < 3600 then
      var k := diffInSeconds / 60;
      assert k * 60 <= diffInSeconds < (k + 1) * 60;
      LabelIsNotJustNow(NatToString(k), " min ago");
      NatToString(k) + " min ago"
    else if diffInSeconds < 86400 then
      var k := diffInSeconds / 3600;
      assert k * 3600 <= diffInSeconds < (k + 1) * 3600;
      LabelIsNotJustNow(NatToString(k), " hours ago");
      NatToString(k) + " hours ago"
    else
      var k := diffInSeconds / 86400;
      assert k * 86400 <= diffInSeconds < (k + 1) * 86400;
      LabelIsNotJustNow(NatToString(k), " days ago");
      NatToString(k) + " days ago"
  }

  /** A label that starts with a digit is never "Just now". */
  lemma LabelIsNotJustNow(digits: string, unit: string)
    requires digits != [] && IsDigit(digits[0])
    ensures digits + unit != "Just now"
  {
    assert (digits + unit)[0] == digits[0];
  }

  /** The label reads back as the number of whole units elapsed. */
  lemma MinutesLabelReadsBack(diffMs: int)
    requires 60 <= diffMs / 1000 < 3600
    ensures var r := FormatTime(diffMs);
      |r| > 8 && r[|r| - 8..] == " min ago" && ParseNat(r[..|r| - 8]) == diffMs / 1000 / 60
  {
    var k: nat := diffMs / 1000 / 60;
    var r := FormatTime(diffMs);
    assert r == NatToString(k) + " min ago";
    assert r[..|r| - 8] == NatToString(k);
    ParseNatToString(k);
  }

  // ---------------------------------------------------------------------------
  // Categories and badges
  // ---------------------------------------------------------------------------

  datatype Notification = Notification(id: string, kind: string, read: bool)

  datatype Tab = All | Bookings | Payments | Updates | Promotions

  /** The `notifications` state: the full list and one filtered list per category. */
  datatype Categories = Categories(
    all: seq<Notification>, bookings: seq<Notification>, payments: seq<Notification>,
    updates: seq<Notification>, promotions: seq<Notification>)

  /** The notification type each category tab keeps. */
  function TabKind(tab: Tab): string
    requires tab != All
  {
    match tab
    case Bookings => "booking"
    case Payments => "payment"
    case Updates => "update"
    case Promotions => "promotion"
  }

  function OfKind(all: seq<Notification>, kind: string): (r: seq<Notification>)
    ensures forall n :: n in r <==> n in all && n.kind == kind
  {
    var r := Filter(all, (n: Notification) => n.kind == kind);
    assert forall n :: n in r ==> exists i :: 0 <= i < |r| && r[i] == n;
    assert forall n :: n in all ==> exists i :: 0 <= i < |all| && all[i] == n;
    r
  }

  /** The state `fetchNotifications` sets from the fetched list. */
  function Categorise(all: seq<Notification>): (c: Categories)
    ensures c.all == all
    ensures forall tab :: tab != All ==> Items(c, tab) == OfKind(all, TabKind(tab))
  {
    Categories(all, OfKind(all, "booking"), OfKind(all, "payment"), OfKind(all, "update"), OfKind(all, "promotion"))
  }

  function Items(c: Categories, tab: Tab): seq<Notification> {
    match tab
    case All => c.all
    case Bookings => c.bookings
    case Payments => c.payments
    case Updates => c.updates
    case Promotions => c.promotions
  }

  /** Each category tab lists its notifications in the order of the full list. */
  lemma CategoryIsOrderedSublist(all: seq<Notification>, tab: Tab)
    requires tab != All
    ensures IsSubsequence(Items(Categorise(all), tab), all)
  {
    FilterIsSubsequence(all, (n: Notification) => n.kind == TabKind(tab));
  }

  /** No notification appears under two category tabs. */
  lemma CategoriesDisjoint(all: seq<Notification>, t1: Tab, t2: Tab, n: Notification)
    requires t1 != All && t2 != All && t1 != t2
    requires n in Items(Categorise(all), t1)
    ensures n !in Items(Categorise(all), t2)
  {
    assert n.kind == TabKind(t1);
  }

  predicate KnownKind(kind: string) {
    kind == "booking" || kind == "payment" || kind == "update" || kind == "promotion"
  }

  /** When every type is one of the four, the category tabs together hold the whole list. */
  lemma {:induction false} CategoriesCoverKnownKinds(all: seq<Notification>)
    requires forall i :: 0 <= i < |all| ==> KnownKind(all[i].kind)
    ensures |OfKind(all, "booking")| + |OfKind(all, "payment")| + |OfKind(all, "update")| + |OfKind(all, "promotion")| == |all|
  {
    if all != [] {
      CategoriesCoverKnownKinds(all[1..]);
    }
  }

  /** The number of unread notifications in a list, counted one by one. */
  function CountUnread(items: seq<Notification>): nat {
    if items == [] then 0 else (if items[0].read then 0 else 1) + CountUnread(items[1..])
  }

  /** A tab's badge: `notifications[tab].filter(n => !n.read).length`, shown when positive. */
  function Badge(c: Categories, tab: Tab): (r: nat)
    ensures r == 0 <==> forall i :: 0 <= i < |Items(c, tab)| ==> Items(c, tab)[i].read
  {
    var unread := Filter(Items(c, tab), (n: Notification) => !n.read);
    assert unread != [] ==> unread[0] in unread;
    |unread|
  }

  lemma {:induction false} UnreadFilterCounts(items: seq<Notification>)
    ensures |Filter(items, (n: Notification) => !n.read)| == CountUnread(items)
  {
    if items != [] {
      UnreadFilterCounts(items[1..]);
    }
  }

  /** The badge equals the number of unread notifications under that tab. */
  lemma BadgeCountsUnread(c: Categories, tab: Tab)
    ensures Badge(c, tab) == CountUnread(Items(c, tab))
  {
    UnreadFilterCounts(Items(c, tab));
  }

  // ---------------------------------------------------------------------------
  // toggleExpand
  // ---------------------------------------------------------------------------

  /** `toggleExpand(id)`: collapses the item if it is the one open, otherwise opens it alone. */
  function ToggleExpand(expandedId: Option<string>, id: string): (r: Option<string>)
    ensures r == None <==> expandedId == Some(id)
    ensures r.Some? ==> r.value == id
  {
    if expandedId == Some(id) then None else Some(id)
  }

  /** Clicking a closed item twice leaves no item expanded. */
  lemma ToggleExpandTwice(expandedId: Option<string>, id: string)
    requires expandedId != Some(id)
    ensures ToggleExpand(ToggleExpand(expandedId, id), id) == None
  {
  }

  // ---------------------------------------------------------------------------
  // getActionButton
  // ---------------------------------------------------------------------------

  datatype ActionButton = ActionButton(text: string, color: string)

  const Teal: string := "bg-[#076870] hover:bg-[#065a60]"
  const Red: string := "bg-red-600 hover:bg-red-700"
  const Gray: string := "bg-gray-600 hover:bg-gray-700"

  const KnownActions: set<string> := {
    "accept", "reject", "view", "receipt", "reschedule", "contact",
    "apply", "share", "remind", "cancel", "confirm", "refer"}

  /** `s.charAt(0).toUpperCase() + s.slice(1)` for lower-case ASCII words. */
  function Capitalise(s: string): string {
    if s == [] then s
    else if 'a' <= s[0] <= 'z' then [(s[0] as int - 32) as char] + s[1..]
    else s
  }

  /** `getActionButton` without its icon. */
  function GetActionButton(action: string): (r: ActionButton)
    ensures action !in KnownActions ==> r == ActionButton("View", Teal)
    ensures r.color == Red <==> action == "reject" || action == "cancel"
    ensures r.color == Gray <==> action == "receipt" || action == "contact" || action == "share"
    ensures r.color == Teal <==> r.color != Red && r.color != Gray
  {
    match action
    case "accept" => ActionButton("Accept", Teal)
    case "reject" => ActionButton("Reject", Red)
    case "view" => ActionButton("View", Teal)
    case "receipt" => ActionButton("Receipt", Gray)
    case "reschedule" => ActionButton("Reschedule", Teal)
    case "contact" => ActionButton("Contact", Gray)
    case "apply" => ActionButton("Apply", Teal)
    case "share" => ActionButton("Share", Gray)
    case "remind" => ActionButton("Remind", Teal)
    case "cancel" => ActionButton("Cancel", Red)
    case "confirm" => ActionButton("Confirm", Teal)
    case "refer" => ActionButton("Refer", Teal)
    case _ => ActionButton("View", Teal)
  }

  /** A known action's button is labelled with the action's name, capitalised. */
  lemma KnownActionLabel(action: string)
    requires action in KnownActions
    ensures GetActionButton(action).text == Capitalise(action)
  {
    match action
    case "accept" => assert GetActionButton("accept").text == Capitalise("accept");
    case "reject" => assert GetActionButton("reject").text == Capitalise("reject");
    case "view" => assert GetActionButton("view").text == Capitalise("view");
    case "receipt" => assert GetActionButton("receipt").text == Capitalise("receipt");
    case "reschedule" => assert GetActionButton("reschedule").text == Capitalise("reschedule");
    case "contact" => assert GetActionButton("contact").text == Capitalise("contact");
    case "apply" => assert GetActionButton("apply").text == Capitalise("apply");
    case "share" => assert GetActionButton("share").text == Capitalise("share");
    case "remind" => assert GetActionButton("remind").text == Capitalise("remind");
    case "cancel" => assert GetActionButton("cancel").text == Capitalise("cancel");
    case "confirm" => assert GetActionButton("confirm").text == Capitalise("confirm");
    case "refer" => assert GetActionButton("refer").text == Capitalise("refer");
  }
}

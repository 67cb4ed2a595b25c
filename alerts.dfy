/** The example alerts panel (src/components/examples/AlertsExample.jsx):
    its label and colour tables, which controls it shows, and the selected
    alert that a successful mark-as-read clears. */
module Alerts {
  import opened Options

  datatype Alert = Alert(id: string, alertType: string, priority: string, message: string, isRead: bool)

  /** getAlertTypeLabel: a known type is replaced by its label, any other
      type is shown as it is. */
  function AlertTypeLabel(alertType: string): (l: string)
    ensures alertType == "high_risk" ==> l == "High Risk Asteroid"
    ensures alertType == "close_approach" ==> l == "Close Approach"
    ensures alertType == "watchlist_update" ==> l == "Watchlist Update"
    ensures alertType == "custom" ==> l == "Custom Alert"
    ensures (alertType == "high_risk" || alertType == "close_approach"
      || alertType == "watchlist_update" || alertType == "custom") <==> l != alertType
  {
    assert |"High Risk Asteroid"| == 18 && |"Close Approach"| == 14;
    assert |"Watchlist Update"| == 16 && |"Custom Alert"| == 12;
    if alertType == "high_risk" then "High Risk Asteroid"
    else if alertType == "close_approach" then "Close Approach"
    else if alertType == "watchlist_update" then "Watchlist Update"
    else if alertType == "custom" then "Custom Alert"
    else alertType
  }

  /** The four known types get four different labels; any other type is
      shown as it is. */
  lemma AlertTypeLabels(t: string)
    ensures var known := ["high_risk", "close_approach", "watchlist_update", "custom"];
      forall i, j :: 0 <= i < j < |known| ==> AlertTypeLabel(known[i]) != AlertTypeLabel(known[j])
    ensures !(t == "high_risk" || t == "close_approach" || t == "watchlist_update" || t == "custom") ==>
      AlertTypeLabel(t) == t
  {
    var known := ["high_risk", "close_approach", "watchlist_update", "custom"];
    assert AlertTypeLabel(known[0]) == "High Risk Asteroid";
    assert AlertTypeLabel(known[1]) == "Close Approach";
    assert AlertTypeLabel(known[2]) == "Watchlist Update";
    assert AlertTypeLabel(known[3]) == "Custom Alert";
  }

  const Red: string := "bg-red-100 text-red-800"
  const Yellow: string := "bg-yellow-100 text-yellow-800"
  const Green: string := "bg-green-100 text-green-800"
  const Gray: string := "bg-gray-100 text-gray-800"

  /** getPriorityColor. */
  function PriorityColor(priority: string): (c: string)
    ensures c == Red <==> priority == "high"
    ensures c == Yellow <==> priority == "medium"
    ensures c == Green <==> priority == "low"
    ensures c == Gray <==> !(priority == "high" || priority == "medium" || priority == "low")
  {
    if priority == "high" then Red
    else if priority == "medium" then Yellow
    else if priority == "low" then Green
    else Gray
  }

  /** `unreadCount > 0`; the count is `undefined` until it has loaded. */
  predicate ShowUnreadBadge(unreadCount: Option<int>) {
    unreadCount.Some? && unreadCount.value > 0
  }

  /** The check button on a card and the "Mark as Read" button of the
      details panel appear only for an unread alert. */
  predicate ShowMarkAsRead(alert: Alert) {
    !alert.isRead
  }

  /** The panel state. `markRequests` lists the ids passed to the
      mark-as-read mutation, oldest first. */
  class AlertsPanel {
    var selectedAlert: Option<Alert>
    var markRequests: seq<string>

    constructor()
      ensures selectedAlert == None && markRequests == []
    {
      selectedAlert := None;
      markRequests := [];
    }

    /** A click on an alert card opens its details. */
    method Select(alert: Alert)
      modifies this
      ensures selectedAlert == Some(alert) && markRequests == old(markRequests)
    {
      selectedAlert := Some(alert);
    }

    /** handleMarkAsRead: requests the change; only a successful request
        closes the details panel. */
    method MarkAsRead(alertId: string, succeeded: bool)
      modifies this
      ensures markRequests == old(markRequests) + [alertId]
      ensures succeeded ==> selectedAlert == None
      ensures !succeeded ==> selectedAlert == old(selectedAlert)
    {
      markRequests := markRequests + [alertId];
      if succeeded {
        selectedAlert := None;
      }
    }
  }
}

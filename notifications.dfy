/**
 * The page's transient notifications: the icon and colour lookups by kind,
 * and the rule that showing a notification first removes every existing one.
 */
module Notifications {

  /** The `icons` object literal of getNotificationIcon. */
  const IconTable: map<string, string> := map[
    "success" := "\U{2713}",
    "error" := "\U{26A0}",
    "info" := "\U{2139}",
    "warning" := "\U{26A0}"
  ]

  /** The `styles` object literal of getNotificationStyles. */
  const StyleTable: map<string, string> := map[
    "success" := "background: #10b981; color: white;",
    "error" := "background: #ef4444; color: white;",
    "info" := "background: #3b82f6; color: white;",
    "warning" := "background: #f59e0b; color: white;"
  ]

  /** `icons[kind] || icons.info`: a kind outside the table gets the info icon. */
  function Icon(kind: string): (r: string)
    ensures r in IconTable.Values
    ensures kind in IconTable ==> r == IconTable[kind]
    ensures kind !in IconTable ==> r == IconTable["info"]
    ensures r == "\U{26A0}" <==> kind == "error" || kind == "warning"
  {
    if kind in IconTable then IconTable[kind] else IconTable["info"]
  }

  /** `styles[kind] || styles.info`: a kind outside the table gets the info colours. */
  function Style(kind: string): (r: string)
    ensures r in StyleTable.Values
    ensures kind in StyleTable ==> r == StyleTable[kind]
    ensures kind !in StyleTable ==> r == StyleTable["info"]
  {
    if kind in StyleTable then StyleTable[kind] else StyleTable["info"]
  }

  /**
   * A notification element: its kind and its text. The icon and colours it
   * is given are fixed by its kind.
   */
  datatype Notification = Notification(kind: string, message: string)
  {
    /** The icon span's text. */
    function IconText(): string
    {
      Icon(kind)
    }

    /** The inline style's colours. */
    function Colours(): string
    {
      Style(kind)
    }
  }

  /** The element showNotification builds for a message of a kind. */
  function Make(message: string, kind: string): Notification
  {
    Notification(kind, message)
  }

  /**
   * The `.notification` elements present in the document, in document order,
   * each with the identity of its element; `nextId` is the identity the next
   * element created will get.
   */
  class NotificationArea {
    var shown: seq<Notification>
    var ids: seq<nat>
    var nextId: nat

    /** At most one notification is ever on the page, and every element present was created earlier. */
    ghost predicate Valid()
      reads this
    {
      && |shown| <= 1
      && |ids| == |shown|
      && forall i :: 0 <= i < |ids| ==> ids[i] < nextId
    }

    /** A page with no notification. */
    constructor ()
      ensures Valid() && shown == [] && ids == []
    {
      shown, ids, nextId := [], [], 0;
    }

    /**
     * showNotification: remove every existing notification, then append a new
     * element, distinct from every element that was on the page.
     */
    method Show(message: string, kind: string)
      modifies this
      ensures Valid()
      ensures shown == [Make(message, kind)]
      ensures ids == [old(nextId)] && nextId == old(nextId) + 1
    {
      while shown != []
        invariant nextId == old(nextId)
        decreases |shown|
      {
        shown := shown[1..];
      }
      shown, ids, nextId := shown + [Make(message, kind)], [nextId], nextId + 1;
    }

    /**
     * The close button, or the five-second timer, removing its own element
     * when `parentElement` shows it is still on the page; an element already
     * gone, or replaced by a later notification, leaves the page unchanged.
     */
    method Dismiss(id: nat)
      requires Valid()
      modifies this
      ensures Valid() && nextId == old(nextId)
      ensures shown == (if id in old(ids) then [] else old(shown))
      ensures ids == (if id in old(ids) then [] else old(ids))
    {
      if id in ids {
        shown, ids := [], [];
      }
    }
  }

  /**
   * The timer of a notification that a later one replaced does not remove
   * the later one: an element created before `Show` is never the one present
   * after it.
   */
  method ReplacedTimerIsHarmless(area: NotificationArea, earlier: nat, message: string, kind: string)
    requires area.Valid() && earlier in area.ids
    modifies area
    ensures area.shown == [Make(message, kind)]
  {
    area.Show(message, kind);
    area.Dismiss(earlier);
  }
}

/**
 * The "Send To..." menu of KScreenGenieGUI: the actions and separators
 * appended to it, and the dispatch of a triggered action's data to one
 * typed request.
 */
module SendTo {
  import opened Base
  import opened QtString

  /** SendToActionsPopulator's action kinds, the first half of ActionData. */
  datatype ActionKind = HardcodedAction | KServiceAction | KipiAction

  /** ActionData: the kind and the string payload attached to a menu action. */
  datatype ActionData = ActionData(kind: ActionKind, payload: string)

  /** The icon of an action; only its identity matters here. */
  datatype Icon = Icon(name: string)

  /** A QAction of the menu: icon, text and attached data. */
  datatype Action = Action(icon: Icon, text: string, data: ActionData)

  /** One entry of mSendToMenu. */
  datatype MenuEntry = ActionEntry(action: Action) | Separator

  /** A service found in the system's service registry. */
  datatype Service = Service(menuId: string, name: string)

  /** The typed requests sendToRequest can emit. */
  datatype SendRequest =
    | ClipboardRequest
    | OpenWithRequest
    | ServiceRequest(service: Option<Service>)  // None: serviceByMenuId found nothing (a null pointer)
    | KipiRequest(actionId: int)

  /** The actions of a menu, in menu order, separators skipped. */
  function ActionsOf(menu: seq<MenuEntry>): (r: seq<Action>)
    ensures |r| <= |menu|
    ensures forall a :: a in r <==> ActionEntry(a) in menu
  {
    if |menu| == 0 then []
    else (if menu[0].ActionEntry? then [menu[0].action] else []) + ActionsOf(menu[1..])
  }

  lemma {:induction false} ActionsOfConcat(a: seq<MenuEntry>, b: seq<MenuEntry>)
    ensures ActionsOf(a + b) == ActionsOf(a) + ActionsOf(b)
  {
    if |a| > 0 {
      assert (a + b)[1..] == a[1..] + b;
      ActionsOfConcat(a[1..], b);
    } else {
      assert a + b == b;
    }
  }

  /**
   * Appending an entry to the menu appends its action, if any, to the
   * actions of the menu and leaves the earlier ones as they were.
   */
  lemma ActionsOfAppend(menu: seq<MenuEntry>, e: MenuEntry)
    ensures ActionsOf(menu + [e]) == ActionsOf(menu) + (if e.ActionEntry? then [e.action] else [])
  {
    ActionsOfConcat(menu, [e]);
    assert ActionsOf([e]) == (if e.ActionEntry? then [e.action] else []) + ActionsOf([]);
  }

  /** KService::serviceByMenuId over a given registry. */
  function ServiceByMenuId(registry: map<string, Service>, menuId: string): (r: Option<Service>)
    ensures r.Some? <==> menuId in registry
    ensures r.Some? ==> r.value == registry[menuId]
  {
    if menuId in registry then Some(registry[menuId]) else None
  }

  /**
   * The switch of sendToRequest: the request, if any, that an action's
   * data asks for.
   */
  function Dispatch(data: ActionData, registry: map<string, Service>): (r: Option<SendRequest>)
    ensures r == Some(ClipboardRequest) <==> data == ActionData(HardcodedAction, "clipboard")
    ensures r == Some(OpenWithRequest) <==> data == ActionData(HardcodedAction, "application")
    ensures (r.Some? && r.value.ServiceRequest?) <==> data.kind == KServiceAction
    ensures r.Some? && r.value.ServiceRequest? ==> r.value.service == ServiceByMenuId(registry, data.payload)
    ensures (r.Some? && r.value.KipiRequest?) <==> data.kind == KipiAction
    ensures r.Some? && r.value.KipiRequest? ==> r.value.actionId == ToLongLong(data.payload)
    ensures r.None? <==> data.kind == HardcodedAction && data.payload !in {"clipboard", "application"}
  {
    match data.kind
    case HardcodedAction =>
      if data.payload == "clipboard" then Some(ClipboardRequest)
      else if data.payload == "application" then Some(OpenWithRequest)
      else None
    case KServiceAction => Some(ServiceRequest(ServiceByMenuId(registry, data.payload)))
    case KipiAction => Some(KipiRequest(ToLongLong(data.payload)))
  }

  /** A plugin action whose id was stored as QString::number(id) is dispatched with that id. */
  lemma KipiDispatchRoundTrip(id: int, registry: map<string, Service>)
    requires Int64Min <= id <= Int64Max
    ensures Dispatch(ActionData(KipiAction, DecimalString(id)), registry) == Some(KipiRequest(id))
  {
    ToLongLongRoundTrip(id);
  }
}

/** Clipboard and notification handling of the nef application: copying a
    rendered image to the pasteboard, announcing it with a notification that
    offers to save the image, and acting on the user's answer. The pasteboard
    and the notification center are fields of `ClipboardConfig` that its
    methods update, with the calls made on them logged, in order, in `trace`.
    Values defined by the `NefNotification` type of the repository (the user
    info key of the image data, the identifiers and titles of its actions)
    are not part of this model and are passed in as `NefNotificationConstants`. */
module Notifications {
  import opened Wrappers

  // ---------------------------------------------------------------------
  // User info dictionaries and the local-notification test
  // ---------------------------------------------------------------------

  /** The values a user-info dictionary holds, as far as the code inspects
      them: an `Int`, a `Data`, or anything else. */
  datatype InfoValue = IntValue(n: int) | DataValue(bytes: seq<bv8>) | OtherValue(description: string)

  type UserInfo = map<string, InfoValue>

  const LaunchIsDefaultKey: string := "NSApplicationLaunchIsDefaultLaunchKey"

  /** `isLocalNotification(_:)`: the launch notification has a user info
      whose default-launch entry is the integer 0. */
  predicate IsLocalNotification(userInfo: Option<UserInfo>)
    ensures IsLocalNotification(userInfo) <==>
      userInfo.Some? && LaunchIsDefaultKey in userInfo.value &&
      userInfo.value[LaunchIsDefaultKey] == IntValue(0)
  {
    match userInfo
    case None => false
    case Some(info) =>
      if LaunchIsDefaultKey in info && info[LaunchIsDefaultKey].IntValue? then
        info[LaunchIsDefaultKey].n == 0
      else
        false
  }

  // ---------------------------------------------------------------------
  // Responding to a notification action
  // ---------------------------------------------------------------------

  /** A case of `NefNotification.Action`: its identifier and title. */
  datatype NefAction = NefAction(identifier: string, title: string)

  /** The values `NefNotification` defines that this code uses. */
  datatype NefNotificationConstants =
    NefNotificationConstants(imageDataKey: string, cancel: NefAction, saveImage: NefAction)

  /** `UNNotificationDismissActionIdentifier`. */
  const DismissActionIdentifier: string := "com.apple.UNNotificationDismissActionIdentifier"

  /** `NefNotification.Response`; a file URL is its path. */
  datatype Response = SaveImage(url: string) | Dismiss

  /** `NefNotification.Error`. */
  datatype NotificationError = NoImageData | PersistImage | UnsupportedAction

  /** `processNotification(_:action:)`. `persist` stands for persisting the
      image through the open panel: the URL written, or `None` when that
      fails. */
  function ProcessNotification(userInfo: UserInfo, action: string, nef: NefNotificationConstants,
                               persist: seq<bv8> -> Option<string>): (r: Result<Response, NotificationError>)
    ensures !(nef.imageDataKey in userInfo && userInfo[nef.imageDataKey].DataValue?) ==>
      r == Failure(NoImageData)
  {
    if !(nef.imageDataKey in userInfo && userInfo[nef.imageDataKey].DataValue?) then
      Failure(NoImageData)
    else
      var image := userInfo[nef.imageDataKey].bytes;
      if action == nef.saveImage.identifier then
        match persist(image)
        case None => Failure(PersistImage)
        case Some(url) => Success(SaveImage(url))
      else if action == DismissActionIdentifier then
        Success(Dismiss)
      else
        Failure(UnsupportedAction)
  }

  /** Once the image data is present, the action decides: saving persists that
      data and answers with the URL written, dismissing answers `Dismiss`,
      every other action is unsupported. */
  lemma ProcessNotificationByAction(userInfo: UserInfo, action: string, nef: NefNotificationConstants,
                                    persist: seq<bv8> -> Option<string>)
    requires nef.imageDataKey in userInfo && userInfo[nef.imageDataKey].DataValue?
    ensures var r := ProcessNotification(userInfo, action, nef, persist);
      var data := userInfo[nef.imageDataKey].bytes;
      (action == nef.saveImage.identifier ==>
        (r == Failure(PersistImage) <==> persist(data).None?) &&
        (persist(data).Some? ==> r == Success(SaveImage(persist(data).value)))) &&
      (action != nef.saveImage.identifier && action == DismissActionIdentifier ==>
        r == Success(Dismiss)) &&
      (action != nef.saveImage.identifier && action != DismissActionIdentifier ==>
        r == Failure(UnsupportedAction))
  {
  }

  /** Only the save action depends on the persisting step: for every other
      action the outcome is the same whatever persisting would do. */
  lemma ProcessNotificationPersistsOnlyToSave(userInfo: UserInfo, action: string, nef: NefNotificationConstants,
                                              persist: seq<bv8> -> Option<string>,
                                              other: seq<bv8> -> Option<string>)
    requires action != nef.saveImage.identifier
    ensures ProcessNotification(userInfo, action, nef, persist) ==
            ProcessNotification(userInfo, action, nef, other)
  {
  }

  /** A Finder request made by the application. */
  datatype WorkspaceEffect = ActivateFileViewerSelecting(urls: seq<string>)

  /** `showClipboardFile(response:)`: the Finder requests made for a response. */
  function ShowClipboardFile(response: Response): (effects: seq<WorkspaceEffect>)
    ensures response.Dismiss? ==> effects == []
    ensures response.SaveImage? ==> effects == [ActivateFileViewerSelecting([response.url])]
  {
    match response
    case SaveImage(url) => [ActivateFileViewerSelecting([url])]
    case Dismiss => []
  }

  // ---------------------------------------------------------------------
  // Pasteboard and notification center
  // ---------------------------------------------------------------------

  /** A decoded image (`NSImage`), by its pixels. */
  datatype Image = Image(pixels: seq<bv8>)

  /** `Clipboard.Error`. */
  datatype ClipboardError = InvalidData | WriteToClipboard | CarbonFailed

  /** `UNNotificationAction`: identifier, title, and whether it brings the
      application to the foreground. */
  datatype NotificationAction = NotificationAction(identifier: string, title: string, foreground: bool)

  /** `UNNotificationCategory`. */
  datatype Category = Category(identifier: string, actions: seq<NotificationAction>,
                               intentIdentifiers: seq<string>, hiddenPreviewsBodyPlaceholder: string,
                               customDismissAction: bool)

  /** The content of a notification as delivered (`UNNotificationContent`). */
  datatype Content = Content(title: string, body: string, categoryIdentifier: string, userInfo: UserInfo)

  /** `UNNotificationRequest`: the trigger, a non-repeating half-second timer,
      is not modelled. */
  datatype Request = Request(identifier: string, content: Content)

  /** A call made on the pasteboard or the notification center. */
  datatype Effect =
    | ClearContents
    | WriteObjects(images: seq<Image>)
    | RemoveAllDeliveredNotifications
    | SetNotificationCategories(categories: seq<Category>)
    | AddRequest(request: Request)

  /** The `unNotificationAction` of a `NefNotification.Action`. */
  function ToNotificationAction(a: NefAction): NotificationAction
  {
    NotificationAction(a.identifier, a.title, true)
  }

  /** The category `showNotification` registers: identified by `id`, with the
      given actions in order, no intents, an empty placeholder and the custom
      dismiss option. */
  function NotificationCategory(id: string, actions: seq<NefAction>): (c: Category)
    ensures c.identifier == id && |c.actions| == |actions|
    ensures forall i :: 0 <= i < |actions| ==>
      c.actions[i].identifier == actions[i].identifier && c.actions[i].title == actions[i].title &&
      c.actions[i].foreground
    ensures c.intentIdentifiers == [] && c.hiddenPreviewsBodyPlaceholder == ""
    ensures c.customDismissAction
  {
    Category(id, seq(|actions|, i requires 0 <= i < |actions| => ToNotificationAction(actions[i])),
             [], "", true)
  }

  /** The request `showNotification` adds: identified by `id`, its content
      in category `id`, with the image data under the image-data key only
      when there is image data. */
  function NotificationRequest(title: string, body: string, imageData: Option<seq<bv8>>,
                               id: string, imageDataKey: string): (r: Request)
    ensures r.identifier == id && r.content.categoryIdentifier == id
    ensures r.content.title == title && r.content.body == body
    ensures imageData.None? <==> r.content.userInfo == map[]
    ensures imageData.Some? ==> r.content.userInfo == map[imageDataKey := DataValue(imageData.value)]
  {
    Request(id, Content(title, body, id,
                        match imageData
                        case None => map[]
                        case Some(data) =>
                          var info := map[imageDataKey := DataValue(data)];
                          assert imageDataKey in info;
                          info))
  }

  /** `UNMutableNotificationContent`, filled in field by field. */
  class MutableContent {
    var title: string
    var body: string
    var categoryIdentifier: string
    var userInfo: UserInfo

    constructor ()
      ensures title == "" && body == "" && categoryIdentifier == "" && userInfo == map[]
    {
      title := "";
      body := "";
      categoryIdentifier := "";
      userInfo := map[];
    }

    /** The content as it is handed to a request. */
    function Snapshot(): Content
      reads this
    {
      Content(title, body, categoryIdentifier, userInfo)
    }
  }

  /** The title, body and actions of the notification that announces a copy. */
  const CopiedTitle: string := "nef"
  const CopiedBody: string := "Image copied to clipboard!"

  function CopiedActions(nef: NefNotificationConstants): seq<NefAction>
  {
    [nef.cancel, nef.saveImage]
  }

  /** The calls `clipboardCarbonIO(data:)` makes, in order, given what decoding
      the data gave and whether the pasteboard accepted the write. */
  function ClipboardCarbonTrace(data: seq<bv8>, decoded: Option<Image>, writeAccepted: bool,
                                nef: NefNotificationConstants, id: string): seq<Effect>
  {
    match decoded
    case None => []
    case Some(image) =>
      [ClearContents, WriteObjects([image])] +
      if !writeAccepted then []
      else [RemoveAllDeliveredNotifications,
            SetNotificationCategories([NotificationCategory(id, CopiedActions(nef))]),
            AddRequest(NotificationRequest(CopiedTitle, CopiedBody, Some(data), id, nef.imageDataKey))]
  }

  /** What `clipboardCarbonIO(data:)` yields. */
  function ClipboardCarbonResult(decoded: Option<Image>, writeAccepted: bool): (r: Result<Image, ClipboardError>)
  {
    match decoded
    case None => Failure(InvalidData)
    case Some(image) => if writeAccepted then Success(image) else Failure(WriteToClipboard)
  }

  /** Undecodable data fails with `InvalidData` before anything is touched; a
      refused write fails with `WriteToClipboard` after clearing and writing
      and before any notification call; otherwise the decoded image is
      yielded after all five calls. */
  lemma ClipboardCarbonStopsAtFirstError(data: seq<bv8>, decoded: Option<Image>, writeAccepted: bool,
                                         nef: NefNotificationConstants, id: string)
    ensures var t := ClipboardCarbonTrace(data, decoded, writeAccepted, nef, id);
      var r := ClipboardCarbonResult(decoded, writeAccepted);
      (decoded.None? ==> r == Failure(InvalidData) && t == []) &&
      (decoded.Some? && !writeAccepted ==>
        r == Failure(WriteToClipboard) && t == [ClearContents, WriteObjects([decoded.value])]) &&
      (decoded.Some? && writeAccepted ==>
        r == Success(decoded.value) && |t| == 5 &&
        t[..2] == [ClearContents, WriteObjects([decoded.value])] &&
        t[2] == RemoveAllDeliveredNotifications &&
        t[3] == SetNotificationCategories([NotificationCategory(id, [nef.cancel, nef.saveImage])]) &&
        t[4].AddRequest? && t[4].request.identifier == id &&
        t[4].request.content.title == CopiedTitle && t[4].request.content.body == CopiedBody &&
        t[4].request.content.userInfo == map[nef.imageDataKey := DataValue(data)])
  {
  }

  /** In every run, each write to the pasteboard comes right after the
      pasteboard is cleared, and the notification is added only as the last
      call of a run whose write succeeded. */
  lemma ClipboardCarbonOrdering(data: seq<bv8>, decoded: Option<Image>, writeAccepted: bool,
                                nef: NefNotificationConstants, id: string)
    ensures var t := ClipboardCarbonTrace(data, decoded, writeAccepted, nef, id);
      (forall i :: 0 <= i < |t| && t[i].WriteObjects? ==> 0 < i && t[i - 1] == ClearContents) &&
      (forall i :: 0 <= i < |t| && t[i].AddRequest? ==>
        i == |t| - 1 && ClipboardCarbonResult(decoded, writeAccepted).Success? &&
        exists j :: 0 <= j < i && t[j] == RemoveAllDeliveredNotifications)
  {
    var t := ClipboardCarbonTrace(data, decoded, writeAccepted, nef, id);
    if decoded.Some? && writeAccepted {
      assert t[2] == RemoveAllDeliveredNotifications;
    }
  }

  /** The pasteboard and the notification center `Clipboard.Config` gives
      access to. `delivered` are the notifications shown so far, `pending`
      the requests added, `categories` the registered categories. */
  class ClipboardConfig {
    var pasteboard: seq<Image>
    var delivered: seq<Request>
    var pending: seq<Request>
    var categories: seq<Category>
    var trace: seq<Effect>

    constructor (pasteboard: seq<Image>, delivered: seq<Request>)
      ensures this.pasteboard == pasteboard && this.delivered == delivered
      ensures pending == [] && categories == [] && trace == []
    {
      this.pasteboard := pasteboard;
      this.delivered := delivered;
      pending := [];
      categories := [];
      trace := [];
    }

    /** `writeToClipboard(_:)`: clears the pasteboard, then writes the image;
        `accepted` is what `writeObjects` answers. */
    method WriteToClipboard(image: Image, accepted: bool) returns (r: Result<(), ClipboardError>)
      modifies this`pasteboard, this`trace
      ensures trace == old(trace) + [ClearContents, WriteObjects([image])]
      ensures pasteboard == if accepted then [image] else []
      ensures r == if accepted then Success(()) else Failure(ClipboardError.WriteToClipboard)
    {
      pasteboard := [];
      trace := trace + [ClearContents];
      trace := trace + [WriteObjects([image])];
      if !accepted {
        return Failure(ClipboardError.WriteToClipboard);
      }
      pasteboard := [image];
      return Success(());
    }

    /** `removeOldNotifications()`. */
    method RemoveOldNotifications()
      modifies this`delivered, this`trace
      ensures delivered == [] && trace == old(trace) + [RemoveAllDeliveredNotifications]
    {
      delivered := [];
      trace := trace + [RemoveAllDeliveredNotifications];
    }

    /** `showNotification(title:body:imageData:actions:id:)`: registers the
        category `id` with the given actions, replacing every category
        registered before, then adds a request `id` whose content belongs to
        that category. */
    method ShowNotification(title: string, body: string, imageData: Option<seq<bv8>>,
                            actions: seq<NefAction>, id: string, imageDataKey: string)
      modifies this`categories, this`pending, this`trace
      ensures categories == [NotificationCategory(id, actions)]
      ensures pending == old(pending) + [NotificationRequest(title, body, imageData, id, imageDataKey)]
      ensures trace == old(trace) + [SetNotificationCategories([NotificationCategory(id, actions)]),
                                     AddRequest(NotificationRequest(title, body, imageData, id, imageDataKey))]
    {
      var content := new MutableContent();
      content.title := title;
      content.body := body;
      content.categoryIdentifier := id;
      if imageData.Some? {
        content.userInfo := map[imageDataKey := DataValue(imageData.value)];
      }
      var category := NotificationCategory(id, actions);
      var request := Request(id, content.Snapshot());
      categories := [category];
      trace := trace + [SetNotificationCategories([category])];
      pending := pending + [request];
      trace := trace + [AddRequest(request)];
    }

    /** `clipboardCarbonIO(data:)`: decode the image, write it to the
        pasteboard, remove the delivered notifications and announce the copy,
        stopping at the first failure. `decoded` is what `makeImage` gives
        for `data`, `writeAccepted` what the pasteboard answers, `id` the
        fresh identifier of the notification. */
    method ClipboardCarbonIO(data: seq<bv8>, decoded: Option<Image>, writeAccepted: bool,
                             nef: NefNotificationConstants, id: string)
      returns (r: Result<Image, ClipboardError>)
      modifies this`pasteboard, this`delivered, this`pending, this`categories, this`trace
      ensures trace == old(trace) + ClipboardCarbonTrace(data, decoded, writeAccepted, nef, id)
      ensures r == ClipboardCarbonResult(decoded, writeAccepted)
      ensures decoded.None? ==> pasteboard == old(pasteboard) && delivered == old(delivered)
      ensures decoded.Some? ==> pasteboard == if writeAccepted then [decoded.value] else []
      ensures r.Success? ==> (delivered == [] &&
        categories == [NotificationCategory(id, CopiedActions(nef))] &&
        pending == old(pending) + [NotificationRequest(CopiedTitle, CopiedBody, Some(data), id, nef.imageDataKey)])
      ensures r.Failure? ==> (delivered == old(delivered) && pending == old(pending) &&
        categories == old(categories))
    {
      if decoded.None? {
        return Failure(InvalidData);
      }
      var image := decoded.value;
      var written := WriteToClipboard(image, writeAccepted);
      if written.Failure? {
        return Failure(written.error);
      }
      RemoveOldNotifications();
      ShowNotification(CopiedTitle, CopiedBody, Some(data), CopiedActions(nef), id, nef.imageDataKey);
      return Success(image);
    }
  }
}

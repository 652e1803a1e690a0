/** The top-level app state: the balance, the notification list, and the
    single pending transfer or bill payment that waits behind the one-time
    code dialog. */
module Bank {
  import opened Types
  import opened Numerals
  import Otp

  datatype ActionKind = TransferAction | BillPayment

  /** The `type` string of a pending action. */
  function KindLabel(k: ActionKind): string {
    match k
    case TransferAction => "Transfer"
    case BillPayment => "Bill Payment"
  }

  /** An action staged for confirmation; `amount` in cents. */
  datatype PendingAction = PendingAction(kind: ActionKind, amount: nat, description: string)

  /** The description a transfer is staged with: the recipient when one was
      given, the generic Zelle label otherwise. */
  function TransferDescription(recipient: string): (d: string)
    ensures recipient != "" ==> d == "Transfer to " + recipient
    ensures recipient == "" ==> d == "Zelle\U{00AE} Transfer"
  {
    if recipient != "" then "Transfer to " + recipient else "Zelle\U{00AE} Transfer"
  }

  /** `s` occurs in `text` starting at index `i`. */
  predicate OccursAt(text: string, s: string, i: int) {
    0 <= i <= |text| - |s| && text[i..i + |s|] == s
  }

  /** `s` occurs in `text` as a contiguous piece. */
  predicate Contains(text: string, s: string) {
    exists i | 0 <= i <= |text| - |s| :: OccursAt(text, s, i)
  }

  /** What the action is called in the completion message: its description,
      or its type when the description is empty. */
  function ActionName(p: PendingAction): string {
    if p.description != "" then p.description else KindLabel(p.kind)
  }

  function CompletionMessage(p: PendingAction): string {
    "Your " + ActionName(p) + " of $" + FormatCents(p.amount) + " was sent successfully."
  }

  /** The notification a confirmed action prepends; `id` stands for the
      clock reading the app uses as an identifier. */
  function CompletionNotice(p: PendingAction, id: string): (n: AppNotification)
    ensures n.title == "Transaction Complete" && !n.isRead && n.kind == Transactional
    ensures n.date == "Just now" && n.id == id
    ensures Contains(n.message, ActionName(p)) && Contains(n.message, FormatCents(p.amount))
  {
    var msg := CompletionMessage(p);
    var name := ActionName(p);
    var amount := FormatCents(p.amount);
    assert OccursAt(msg, name, 5);
    assert OccursAt(msg, amount, 5 + |name| + 5);
    AppNotification(id, "Transaction Complete", msg, "Just now", false, Transactional)
  }

  /** `markNotificationRead(id)`: every entry with that id becomes read; the
      list keeps its length and order and every other field. */
  function MarkRead(ns: seq<AppNotification>, id: string): (r: seq<AppNotification>)
    ensures |r| == |ns|
    ensures forall i :: 0 <= i < |ns| ==>
      r[i].isRead == (ns[i].isRead || ns[i].id == id) && r[i].(isRead := ns[i].isRead) == ns[i]
  {
    seq(|ns|, i requires 0 <= i < |ns| => if ns[i].id == id then ns[i].(isRead := true) else ns[i])
  }

  /** `markAllRead`: every entry becomes read, nothing else changes. */
  function MarkAllRead(ns: seq<AppNotification>): (r: seq<AppNotification>)
    ensures |r| == |ns|
    ensures forall i :: 0 <= i < |ns| ==> r[i].isRead && r[i].(isRead := ns[i].isRead) == ns[i]
  {
    seq(|ns|, i requires 0 <= i < |ns| => ns[i].(isRead := true))
  }

  /** `unreadCount`: the length of the unread entries; zero exactly when
      every entry has been read. */
  function UnreadCount(ns: seq<AppNotification>): (c: nat)
    ensures c <= |ns|
    ensures c == 0 <==> forall i :: 0 <= i < |ns| ==> ns[i].isRead
  {
    if ns == [] then 0 else (if ns[0].isRead then 0 else 1) + UnreadCount(ns[1..])
  }

  /** Marking all read twice is marking them once, and afterwards nothing is
      unread. */
  lemma MarkAllReadIdempotent(ns: seq<AppNotification>)
    ensures MarkAllRead(MarkAllRead(ns)) == MarkAllRead(ns)
    ensures UnreadCount(MarkAllRead(ns)) == 0
  {
  }

  /** Marking one id read never raises the unread count, and lowers it when
      an unread entry carries that id. */
  lemma {:induction false} MarkReadLowersUnread(ns: seq<AppNotification>, id: string)
    ensures UnreadCount(MarkRead(ns, id)) <= UnreadCount(ns)
    ensures (exists i :: 0 <= i < |ns| && ns[i].id == id && !ns[i].isRead) ==>
      UnreadCount(MarkRead(ns, id)) < UnreadCount(ns)
    decreases |ns|
  {
    if ns != [] {
      var r := MarkRead(ns, id);
      MarkReadLowersUnread(ns[1..], id);
      assert r[1..] == MarkRead(ns[1..], id);
      if exists i :: 0 <= i < |ns| && ns[i].id == id && !ns[i].isRead {
        var i :| 0 <= i < |ns| && ns[i].id == id && !ns[i].isRead;
        if i > 0 {
          assert ns[1..][i - 1].id == id && !ns[1..][i - 1].isRead;
        }
      }
    }
  }

  /** The dedup guard of the insight fetch: a fresh insight is already there. */
  predicate HasRecentInsight(ns: seq<AppNotification>) {
    exists i :: 0 <= i < |ns| && ns[i].kind == Insight && ns[i].date == "Just now"
  }

  function InsightNotice(id: string, text: string): AppNotification {
    AppNotification(id, "Erica\U{00AE} Financial Insight", text, "Just now", false, Insight)
  }

  /** The insight fetch: prepend the assistant's text unless a fresh insight
      is already listed. */
  function WithInsight(ns: seq<AppNotification>, id: string, text: string): (r: seq<AppNotification>)
    ensures HasRecentInsight(r)
    ensures HasRecentInsight(ns) ==> r == ns
    ensures !HasRecentInsight(ns) ==> r == [InsightNotice(id, text)] + ns
  {
    if HasRecentInsight(ns) then ns
    else
      var r := [InsightNotice(id, text)] + ns;
      assert r[0].kind == Insight && r[0].date == "Just now";
      r
  }

  /** However often the fetch runs, at most one insight is added. */
  lemma InsightAddedAtMostOnce(ns: seq<AppNotification>, id1: string, text1: string, id2: string, text2: string)
    ensures WithInsight(WithInsight(ns, id1, text1), id2, text2) == WithInsight(ns, id1, text1)
    ensures |WithInsight(ns, id1, text1)| <= |ns| + 1
  {
  }

  /** The app's state while logged in. */
  class App {
    var balance: int
    var activeTab: Tab
    var isOtpVisible: bool
    var notifications: seq<AppNotification>
    var pendingAction: Option<PendingAction>

    /** The code dialog is only ever shown with an action staged behind it. */
    ghost predicate Valid()
      reads this
    {
      isOtpVisible ==> pendingAction.Some?
    }

    /** The state with nothing saved: the default balance and notifications. */
    constructor ()
      ensures Valid()
      ensures balance == InitialBalance && activeTab == Home && !isOtpVisible
      ensures notifications == MockNotifications && pendingAction == None
    {
      balance := InitialBalance;
      activeTab := Home;
      isOtpVisible := false;
      notifications := MockNotifications;
      pendingAction := None;
    }

    /** `handleTransfer`: stage the transfer (replacing whatever was staged)
        and show the code dialog. */
    method HandleTransfer(amount: nat, recipient: string)
      requires Valid()
      modifies this
      ensures Valid()
      ensures pendingAction == Some(PendingAction(TransferAction, amount, TransferDescription(recipient)))
      ensures isOtpVisible
      ensures balance == old(balance) && notifications == old(notifications) && activeTab == old(activeTab)
    {
      pendingAction := Some(PendingAction(TransferAction, amount, TransferDescription(recipient)));
      isOtpVisible := true;
    }

    /** `handleBillPay`: stage the payment (replacing whatever was staged)
        and show the code dialog. */
    method HandleBillPay(amount: nat, biller: string)
      requires Valid()
      modifies this
      ensures Valid()
      ensures pendingAction == Some(PendingAction(BillPayment, amount, "Payment to " + biller))
      ensures isOtpVisible
      ensures balance == old(balance) && notifications == old(notifications) && activeTab == old(activeTab)
    {
      pendingAction := Some(PendingAction(BillPayment, amount, "Payment to " + biller));
      isOtpVisible := true;
    }

    /** `confirmAction`: commit the staged action. The amount is taken off the
        balance without comparing it with the balance again. */
    method ConfirmAction(id: string)
      requires Valid()
      modifies this
      ensures Valid()
      ensures old(pendingAction).None? ==> unchanged(this)
      ensures old(pendingAction).Some? ==>
        var p := old(pendingAction).value;
        && balance == old(balance) - p.amount
        && pendingAction == None && !isOtpVisible && activeTab == Home
        && notifications == [CompletionNotice(p, id)] + old(notifications)
    {
      if pendingAction.Some? {
        var p := pendingAction.value;
        balance := balance - p.amount;
        pendingAction := None;
        isOtpVisible := false;
        activeTab := Home;
        notifications := [CompletionNotice(p, id)] + notifications;
      }
    }

    /** The dialog's verify button with `confirmAction` as its `onConfirm`:
        the staged action is committed exactly when the typed code matches;
        on a mismatch the dialog clears its slots and the app is left as it
        was, with the action still staged behind the open dialog. */
    method SubmitCode(modal: Otp.OtpModal, id: string) returns (confirmed: bool)
      requires Valid() && isOtpVisible && modal.Valid()
      modifies this, modal`activeIdx, modal.code
      ensures Valid() && modal.Valid()
      ensures confirmed == Otp.VerifyEntry(old(modal.State()), modal.generatedCode).confirmed
      ensures modal.State() == Otp.VerifyEntry(old(modal.State()), modal.generatedCode).entry
      ensures confirmed ==>
        var p := old(pendingAction).value;
        && balance == old(balance) - p.amount
        && pendingAction == None && !isOtpVisible && activeTab == Home
        && notifications == [CompletionNotice(p, id)] + old(notifications)
      ensures !confirmed ==>
        && balance == old(balance) && notifications == old(notifications)
        && pendingAction == old(pendingAction) && isOtpVisible && activeTab == old(activeTab)
    {
      confirmed := modal.Verify();
      if confirmed {
        ConfirmAction(id);
      }
    }

    /** The dialog's cancel handler: it only hides the dialog; the action
        stays staged. */
    method CancelOtp()
      requires Valid()
      modifies this`isOtpVisible
      ensures Valid() && !isOtpVisible
    {
      isOtpVisible := false;
    }

    method MarkNotificationRead(id: string)
      requires Valid()
      modifies this`notifications
      ensures Valid() && notifications == MarkRead(old(notifications), id)
    {
      notifications := MarkRead(notifications, id);
    }

    method MarkAllNotificationsRead()
      requires Valid()
      modifies this`notifications
      ensures Valid() && notifications == MarkAllRead(old(notifications))
      ensures UnreadCount(notifications) == 0
    {
      notifications := MarkAllRead(notifications);
    }

    /** The insight fetch's completion, with the assistant's text and the
        clock-based id as parameters. */
    method AddInsight(id: string, text: string)
      requires Valid()
      modifies this`notifications
      ensures Valid() && notifications == WithInsight(old(notifications), id, text)
    {
      notifications := WithInsight(notifications, id, text);
    }
  }
}

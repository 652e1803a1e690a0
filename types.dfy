/** The records of the banking app and its fixed demonstration data. Money is
    held as integer cents throughout, so 129.00 is 12900 and -6.45 is -645. */
module Types {

  datatype Option<T> = None | Some(value: T)

  datatype Category = Shopping | Food | Transfer | Bills | Income

  /** A statement line; a negative amount is spending, a positive one income. */
  datatype Transaction = Transaction(
    id: string, date: string, description: string, amount: int, category: Category)

  datatype BillStatus = Pending | Paid

  datatype Bill = Bill(id: string, name: string, dueDate: string, amount: nat, status: BillStatus)

  datatype NotificationKind = Security | Transactional | Insight | System

  datatype AppNotification = AppNotification(
    id: string, title: string, message: string, date: string, isRead: bool, kind: NotificationKind)

  datatype Sender = User | Erica

  datatype MessageStatus = Sending | Delivered | Read

  /** A chat bubble; `status` is only ever set on the user's own messages. */
  datatype ChatMessage = ChatMessage(
    id: string, text: string, sender: Sender, timestamp: string, status: Option<MessageStatus>)

  /** The keys of the on-screen keypad, in the order it lays them out. */
  const KeypadKeys: seq<char> := ['1', '2', '3', '4', '5', '6', '7', '8', '9', '.', '0']

  datatype Tab = Home | TransferTab | BillPay | Chat | StatementsTab | Menu

  /** 20000.00 */
  const InitialBalance: int := 2000000

  const MockTransactions: seq<Transaction> := [
    Transaction("1", "Oct 24", "Apple Store Purchase", -12900, Shopping),
    Transaction("2", "Oct 23", "Starbucks Coffee", -645, Food),
    Transaction("3", "Oct 22", "Payroll Deposit", 325000, Income),
    Transaction("4", "Oct 20", "Verizon Wireless Bill", -8500, Bills),
    Transaction("5", "Oct 18", "Zelle Transfer - Mom", -20000, Transfer),
    Transaction("6", "Oct 15", "Whole Foods Market", -14520, Food)
  ]

  const MockBills: seq<Bill> := [
    Bill("b1", "Pacific Gas & Electric", "Nov 05", 14250, Pending),
    Bill("b2", "State Farm Insurance", "Nov 12", 8900, Pending),
    Bill("b3", "Gym Membership", "Nov 15", 4500, Pending)
  ]

  const MockNotifications: seq<AppNotification> := [
    AppNotification("n1", "Security Alert",
      "A new sign-in was detected on a Chrome browser from San Francisco, CA.",
      "2h ago", false, Security),
    AppNotification("n2", "Transaction Alert",
      "Your direct deposit of $3,250.00 was successfully credited to your Advantage Plus Checking.",
      "Yesterday", true, Transactional),
    AppNotification("n3", "Low Balance Warning",
      "Your Savings account (...1102) is below your set threshold of $1,000.",
      "Oct 22", false, System)
  ]
}

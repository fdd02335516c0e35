/** Entities, states and constants shared by every part of the system. Money is in integer cents, time in
    seconds; the zero time is 0. */
module Domain {
  import opened Text

  const MINIMUM_ORDER_TTL_SECONDS := 30 * 60
  const MAILBOX_SERVICE_TIMEOUT_LIMIT := 5
  const MINIMUM_HEALTH := 60

  datatype Option<+T> = None | Some(value: T)

  datatype OrderStatus =
    | OrderCreated | OrderAllocating | OrderAssigned | OrderWaitingCode | OrderCodeReceived
    | OrderCompleted | OrderCanceled | OrderExpiredRefunded | OrderAllocationFailed | OrderDisputed

  datatype MailboxState =
    | MailboxAvailable | MailboxLeased | MailboxCooldown | MailboxBlocked | MailboxError | MailboxPending

  datatype SlotState = SlotAvailable | SlotLeased | SlotConsumed | SlotCooldown | SlotBlocked

  datatype Verification = Unverified | PendingVerification | Verified | VerificationFailed

  datatype Connection = Unspecified | Auto | MicrosoftOAuth | MicrosoftGraph | Imap

  datatype User = User(id: string, balance: int)

  datatype Service = Service(
    id: string, code: string, enabled: bool,
    allowedProviders: seq<string>, providerPrices: map<string, int>, ttlSeconds: int,
    senderDomains: seq<string>, subjectKeywords: seq<string>, regex: string)

  /** State of one mailbox on one target platform. */
  datatype Slot = Slot(state: SlotState, timeoutCount: nat)

  datatype Mailbox = Mailbox(
    id: string, address: string, provider: string, state: MailboxState, healthScore: int,
    oauthValidUntil: int, activeOrderId: string, todayCodes: int, lastReceivedAt: int,
    connection: Connection, verification: Verification, services: map<string, Slot>)

  datatype Order = Order(
    id: string, userId: string, serviceId: string, mailboxId: string, mailboxProvider: string,
    requestedProviders: seq<string>, status: OrderStatus, code: string, price: int,
    createdAt: int, assignedAt: int, submittedAt: int, codeReceivedAt: int, completedAt: int, expiresAt: int,
    refunded: bool, requestId: string, failureReason: string)

  predicate Active(o: Order) {
    o.status == OrderAssigned || o.status == OrderWaitingCode
  }

  predicate HasCode(o: Order) {
    o.status == OrderCodeReceived || o.status == OrderCompleted
  }

  function EffectiveOrderTtlSeconds(ttlSeconds: int): int {
    MINIMUM_ORDER_TTL_SECONDS
  }

  function NextTimeoutState(current: nat): (nat, SlotState) {
    var next := current + 1;
    (next, if next >= MAILBOX_SERVICE_TIMEOUT_LIMIT then SlotConsumed else SlotAvailable)
  }

  const SUPPORTED_PROVIDERS := ["outlook", "outlook_de", "hotmail", "gmail", "icloud", "mailcom"]

  function Normalize(raw: string): string {
    ToLower(TrimSpace(raw))
  }

  predicate IsSupportedProvider(provider: string) {
    Normalize(provider) in SUPPORTED_PROVIDERS
  }

  function Elements(s: seq<string>): set<string> {
    set x | x in s
  }
}

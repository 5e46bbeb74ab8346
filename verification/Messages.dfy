/** Messages between chains and the bundles in which they travel. */
module Messages {
  import opened Base

  type ChainId = nat

  type ApplicationId = nat

  type ChannelName = nat

  /** The application that handles a message: the system itself or a user application. */
  datatype GenericApplicationId = System | User(id: ApplicationId)

  datatype Message =
    | Subscribe(id: ChainId, name: ChannelName)
    | Unsubscribe(id: ChainId, name: ChannelName)
    | OtherSystem(payload: nat)
    | UserMessage(application: ApplicationId, bytes: seq<nat>)
  {
    predicate GoesToInbox() {
      !Subscribe? && !Unsubscribe?
    }

    function Application(): GenericApplicationId {
      if UserMessage? then User(application) else System
    }
  }

  /** Where the sender directs a message: to one chain, or to whoever subscribes to a channel. */
  datatype Destination = Recipient(id: ChainId) | Subscribers(name: ChannelName)

  /** How a message travels: directly, or by broadcast on a channel of an application. */
  datatype Medium = Direct | Channel(application: GenericApplicationId, name: ChannelName)

  /** Identifies an inbox. */
  datatype Origin = Origin(sender: ChainId, medium: Medium)

  /** Identifies an outbox. */
  datatype Target = Target(recipient: ChainId, medium: Medium)

  datatype MessageKind = Simple | Protected | Tracked | Bouncing

  datatype PostedMessage = PostedMessage(
    authenticatedSigner: Option<nat>,
    grant: u128,
    refundGrantTo: Option<nat>,
    kind: MessageKind,
    index: nat,
    message: Message)
  {
    predicate IsSkippable() {
      match kind
      case Protected => false
      case Tracked => false
      case Simple => grant == 0
      case Bouncing => grant == 0
    }
  }

  datatype MessageBundle = MessageBundle(
    height: u64,
    timestamp: u64,
    certificateHash: nat,
    transactionIndex: u32,
    messages: seq<PostedMessage>)
  {
    predicate IsSkippable() {
      forall m <- messages :: m.IsSkippable()
    }

    predicate GoesToInbox() {
      exists m <- messages :: m.message.GoesToInbox()
    }
  }

  /** The logical position of a bundle among everything its sender produces. */
  datatype Cursor = Cursor(height: u64, index: u32)

  function CursorOf(b: MessageBundle): Cursor {
    Cursor(b.height, b.transactionIndex)
  }

  /** Position in the derived order of cursors; all comparisons go through this number. */
  function Pos(c: Cursor): nat {
    c.height * (U32_MAX + 1) + c.index
  }

  function PosOf(b: MessageBundle): nat {
    Pos(CursorOf(b))
  }

  lemma PosIsDerivedOrder(a: Cursor, b: Cursor)
    ensures Pos(a) < Pos(b) <==> a.height < b.height || (a.height == b.height && a.index < b.index)
    ensures Pos(a) == Pos(b) ==> a == b
  {
  }
}

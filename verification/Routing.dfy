/** Outgoing messages of a block: their identifiers, and the bundles each recipient is sent. */
module Routing {
  import opened Base
  import opened Messages

  datatype OutgoingMessage = OutgoingMessage(
    destination: Destination,
    authenticatedSigner: Option<nat>,
    grant: u128,
    refundGrantTo: Option<nat>,
    kind: MessageKind,
    message: Message)
  {
    predicate HasDestination(medium: Medium, recipient: ChainId) {
      match (destination, medium)
      case (Recipient(_), Channel(_, _)) => false
      case (Subscribers(_), Direct) => false
      case (Recipient(id), Direct) => id == recipient
      case (Subscribers(n), Channel(application, name)) => application == message.Application() && name == n
    }

    function IntoPosted(index: u32): PostedMessage {
      PostedMessage(authenticatedSigner, grant, refundGrantTo, kind, index, message)
    }
  }

  datatype MessageId = MessageId(chainId: ChainId, height: u64, index: u32)

  /** The part of an executed block that routing looks at; messages are grouped by transaction. */
  datatype SentBlock = SentBlock(
    chainId: ChainId,
    height: u64,
    timestamp: u64,
    epoch: u32,
    incomingBundles: nat,
    messages: seq<seq<OutgoingMessage>>)

  /** Truncation to 32 bits. */
  function Wrap32(n: nat): (r: u32)
    ensures r <= n && (r == n <==> n <= U32_MAX)
  {
    n % 0x1_0000_0000
  }

  // ----- Looking up messages -----

  /** All messages of the block in order. */
  function Flat<T>(groups: seq<seq<T>>): seq<T> {
    if groups == [] then [] else Flat(groups[..|groups| - 1]) + groups[|groups| - 1]
  }

  lemma {:induction false} FlatConcat<T>(a: seq<seq<T>>, b: seq<seq<T>>)
    ensures Flat(a + b) == Flat(a) + Flat(b)
    decreases |b|
  {
    if b == [] {
      assert a + b == a;
    } else {
      var init, last := b[..|b| - 1], b[|b| - 1];
      assert (a + b)[..|a + b| - 1] == a + init;
      FlatConcat(a, init);
      assert Flat(a) + Flat(init) + last == Flat(a) + (Flat(init) + last);
    }
  }

  /** A message of a transaction stands behind all messages of earlier transactions. */
  lemma FlatAt<T>(groups: seq<seq<T>>, t: nat, i: nat)
    requires t < |groups| && i < |groups[t]|
    ensures |Flat(groups[..t])| + i < |Flat(groups)|
    ensures Flat(groups)[|Flat(groups[..t])| + i] == groups[t][i]
  {
    assert groups == groups[..t + 1] + groups[t + 1..];
    FlatConcat(groups[..t + 1], groups[t + 1..]);
    assert groups[..t + 1][..t] == groups[..t];
  }

  /** What a message identifier stands for. */
  function Lookup(b: SentBlock, id: MessageId): Option<OutgoingMessage> {
    if b.chainId == id.chainId && b.height == id.height && id.index < |Flat(b.messages)|
    then Some(Flat(b.messages)[id.index])
    else None
  }

  method MessageById(b: SentBlock, id: MessageId) returns (r: Option<OutgoingMessage>)
    ensures r == Lookup(b, id)
  {
    if b.chainId != id.chainId || b.height != id.height {
      return None;
    }
    var index: nat := id.index;
    var t := 0;
    while t < |b.messages|
      invariant 0 <= t <= |b.messages|
      invariant id.index == |Flat(b.messages[..t])| + index
    {
      assert b.messages[..t + 1][..t] == b.messages[..t];
      if index < |b.messages[t]| {
        FlatAt(b.messages, t, index);
        return Some(b.messages[t][index]);
      }
      index := index - |b.messages[t]|;
      t := t + 1;
    }
    assert b.messages[..t] == b.messages;
    r := None;
  }

  function MessageIdForOperation(b: SentBlock, operationIndex: nat, messageIndex: u32): Option<MessageId> {
    var transaction := b.incomingBundles + operationIndex;
    if transaction > U64_MAX || transaction >= |b.messages| then None
    else if |b.messages[transaction]| > U32_MAX || messageIndex >= |b.messages[transaction]| then None
    else
      var first := |Flat(b.messages[..transaction])|;
      if first > U32_MAX || first + messageIndex > U32_MAX then None
      else Some(MessageId(b.chainId, b.height, first + messageIndex))
  }

  /** An operation's message is found again under its identifier. */
  lemma OperationMessageFound(b: SentBlock, operationIndex: nat, messageIndex: u32)
    ensures var id := MessageIdForOperation(b, operationIndex, messageIndex);
            var t := b.incomingBundles + operationIndex;
            id.Some? ==> && t < |b.messages| && messageIndex < |b.messages[t]|
                         && Lookup(b, id.value) == Some(b.messages[t][messageIndex])
  {
    var t := b.incomingBundles + operationIndex;
    if MessageIdForOperation(b, operationIndex, messageIndex).Some? {
      FlatAt(b.messages, t, messageIndex);
    }
  }

  /** In a block whose transactions and messages can be numbered, every message of an operation has an identifier. */
  lemma OperationMessageNamed(b: SentBlock, operationIndex: nat, messageIndex: u32)
    requires |Flat(b.messages)| <= U32_MAX + 1 && |b.messages| <= U64_MAX + 1
    ensures var t := b.incomingBundles + operationIndex;
            MessageIdForOperation(b, operationIndex, messageIndex).Some?
            <==> t < |b.messages| && messageIndex < |b.messages[t]| <= U32_MAX
  {
    var t := b.incomingBundles + operationIndex;
    if t < |b.messages| && messageIndex < |b.messages[t]| {
      FlatAt(b.messages, t, messageIndex);
    }
  }

  // ----- Bundles for a recipient -----

  /** The messages of a stretch that are addressed to the recipient, numbered from the given start. */
  function Addressed(messages: seq<OutgoingMessage>, start: nat, medium: Medium, recipient: ChainId): seq<PostedMessage> {
    if messages == [] then [] else
      var init, last := messages[..|messages| - 1], messages[|messages| - 1];
      if last.HasDestination(medium, recipient)
      then Addressed(init, start, medium, recipient) + [last.IntoPosted(Wrap32(start + |init|))]
      else Addressed(init, start, medium, recipient)
  }

  /** The share of one transaction, numbered behind all earlier messages of the block. */
  function BundleOf(b: SentBlock, hash: nat, medium: Medium, recipient: ChainId, t: nat): MessageBundle
    requires t < |b.messages|
  {
    MessageBundle(b.height, b.timestamp, hash, Wrap32(t),
                  Addressed(b.messages[t], |Flat(b.messages[..t])|, medium, recipient))
  }

  /** One bundle for each of the first n transactions that addresses the recipient. */
  function Bundles(b: SentBlock, hash: nat, medium: Medium, recipient: ChainId, n: nat): seq<MessageBundle>
    requires n <= |b.messages|
  {
    if n == 0 then [] else
      var bundle := BundleOf(b, hash, medium, recipient, n - 1);
      if bundle.messages == [] then Bundles(b, hash, medium, recipient, n - 1)
      else Bundles(b, hash, medium, recipient, n - 1) + [bundle]
  }

  /** Numbering only depends on the start modulo two to the power of 32. */
  lemma {:induction false} AddressedWraps(messages: seq<OutgoingMessage>, start: nat, medium: Medium, recipient: ChainId)
    ensures Addressed(messages, Wrap32(start), medium, recipient) == Addressed(messages, start, medium, recipient)
  {
    if messages != [] {
      AddressedWraps(messages[..|messages| - 1], start, medium, recipient);
      WrapAdd(start, |messages| - 1);
    }
  }

  lemma {:induction false} WrapShift(x: nat, q: nat)
    ensures Wrap32(x + 0x1_0000_0000 * q) == Wrap32(x)
  {
    if q > 0 {
      WrapShift(x, q - 1);
    }
  }

  lemma WrapAdd(a: nat, b: nat)
    ensures Wrap32(Wrap32(a) + b) == Wrap32(a + b) == Wrap32(Wrap32(a) + Wrap32(b))
  {
    WrapShift(Wrap32(a) + b, a / 0x1_0000_0000);
    WrapShift(Wrap32(a) + Wrap32(b), b / 0x1_0000_0000);
  }

  /** The running index stands for the number of messages passed so far. */
  lemma RunningIndex(b: SentBlock, medium: Medium, recipient: ChainId, t: nat, index: u32)
    requires t < |b.messages| && index == Wrap32(|Flat(b.messages[..t])|)
    ensures Addressed(b.messages[t], index, medium, recipient)
         == Addressed(b.messages[t], |Flat(b.messages[..t])|, medium, recipient)
    ensures Wrap32(index + Wrap32(|b.messages[t]|)) == Wrap32(|Flat(b.messages[..t + 1])|)
  {
    AddressedWraps(b.messages[t], |Flat(b.messages[..t])|, medium, recipient);
    assert b.messages[..t + 1][..t] == b.messages[..t];
    WrapAdd(|Flat(b.messages[..t])|, |b.messages[t]|);
  }

  function WithEpoch(epoch: u32, bundles: seq<MessageBundle>): seq<(u32, MessageBundle)> {
    if bundles == [] then []
    else WithEpoch(epoch, bundles[..|bundles| - 1]) + [(epoch, bundles[|bundles| - 1])]
  }

  /** What the share of one more transaction adds. */
  lemma OneMoreShare(b: SentBlock, hash: nat, medium: Medium, recipient: ChainId, t: nat,
                     messages: seq<PostedMessage>)
    requires t < |b.messages| && messages == BundleOf(b, hash, medium, recipient, t).messages
    ensures WithEpoch(b.epoch, Bundles(b, hash, medium, recipient, t + 1))
         == if messages == [] then WithEpoch(b.epoch, Bundles(b, hash, medium, recipient, t))
            else WithEpoch(b.epoch, Bundles(b, hash, medium, recipient, t))
                 + [(b.epoch, MessageBundle(b.height, b.timestamp, hash, Wrap32(t), messages))]
  {
    var before, bundle := Bundles(b, hash, medium, recipient, t), BundleOf(b, hash, medium, recipient, t);
    assert (before + [bundle])[..|before|] == before;
  }

  method MessageBundlesFor(b: SentBlock, hash: nat, medium: Medium, recipient: ChainId)
    returns (bundles: seq<(u32, MessageBundle)>)
    ensures bundles == WithEpoch(b.epoch, Bundles(b, hash, medium, recipient, |b.messages|))
  {
    bundles := [];
    var index: u32 := 0;
    var t := 0;
    while t < |b.messages|
      invariant 0 <= t <= |b.messages|
      invariant index == Wrap32(|Flat(b.messages[..t])|)
      invariant bundles == WithEpoch(b.epoch, Bundles(b, hash, medium, recipient, t))
    {
      var messages := CollectAddressed(b.messages[t], index, medium, recipient);
      RunningIndex(b, medium, recipient, t, index);
      index := Wrap32(index + Wrap32(|b.messages[t]|));
      OneMoreShare(b, hash, medium, recipient, t, messages);
      if messages != [] {
        bundles := bundles + [(b.epoch, MessageBundle(b.height, b.timestamp, hash, Wrap32(t), messages))];
      }
      t := t + 1;
    }
  }

  method CollectAddressed(txnMessages: seq<OutgoingMessage>, start: u32, medium: Medium, recipient: ChainId)
    returns (messages: seq<PostedMessage>)
    ensures messages == Addressed(txnMessages, start, medium, recipient)
  {
    messages := [];
    var i := 0;
    while i < |txnMessages|
      invariant 0 <= i <= |txnMessages|
      invariant messages == Addressed(txnMessages[..i], start, medium, recipient)
    {
      assert txnMessages[..i + 1][..i] == txnMessages[..i];
      if txnMessages[i].HasDestination(medium, recipient) {
        messages := messages + [txnMessages[i].IntoPosted(Wrap32(start + i))];
      }
      i := i + 1;
    }
    assert txnMessages[..i] == txnMessages;
  }

  // ----- What the bundles are -----

  function Payloads(bundles: seq<MessageBundle>): seq<seq<PostedMessage>> {
    seq(|bundles|, i requires 0 <= i < |bundles| => bundles[i].messages)
  }

  lemma {:induction false} AddressedConcat(a: seq<OutgoingMessage>, b: seq<OutgoingMessage>, start: nat,
                                           medium: Medium, recipient: ChainId)
    ensures Addressed(a + b, start, medium, recipient)
         == Addressed(a, start, medium, recipient) + Addressed(b, start + |a|, medium, recipient)
    decreases |b|
  {
    if b == [] {
      assert a + b == a;
    } else {
      assert (a + b)[..|a + b| - 1] == a + b[..|b| - 1];
      AddressedConcat(a, b[..|b| - 1], start, medium, recipient);
    }
  }

  /** The bundles together hold exactly the recipient's messages, in the order of the block. */
  lemma {:induction false} BundlesHoldAddressed(b: SentBlock, hash: nat, medium: Medium, recipient: ChainId, n: nat)
    requires n <= |b.messages|
    ensures Flat(Payloads(Bundles(b, hash, medium, recipient, n)))
         == Addressed(Flat(b.messages[..n]), 0, medium, recipient)
    decreases n
  {
    if n > 0 {
      BundlesHoldAddressed(b, hash, medium, recipient, n - 1);
      var init := Bundles(b, hash, medium, recipient, n - 1);
      var bundle := BundleOf(b, hash, medium, recipient, n - 1);
      assert b.messages[..n][..n - 1] == b.messages[..n - 1];
      AddressedConcat(Flat(b.messages[..n - 1]), b.messages[n - 1], 0, medium, recipient);
      if bundle.messages != [] {
        assert Payloads(init + [bundle])[..|init|] == Payloads(init);
      }
    }
  }

  /** Each bundle is the non-empty share of one transaction. */
  lemma {:induction false} BundleSource(b: SentBlock, hash: nat, medium: Medium, recipient: ChainId, n: nat, i: nat)
    returns (t: nat)
    requires n <= |b.messages| && i < |Bundles(b, hash, medium, recipient, n)|
    ensures t < n && Bundles(b, hash, medium, recipient, n)[i] == BundleOf(b, hash, medium, recipient, t)
    ensures Bundles(b, hash, medium, recipient, n)[i].messages != []
    decreases n
  {
    if i < |Bundles(b, hash, medium, recipient, n - 1)| {
      t := BundleSource(b, hash, medium, recipient, n - 1, i);
    } else {
      t := n - 1;
    }
  }

  /** Later bundles come from later transactions. */
  lemma {:induction false} BundlesIncrease(b: SentBlock, hash: nat, medium: Medium, recipient: ChainId, n: nat,
                                           i: nat, j: nat)
    requires n <= |b.messages| <= U32_MAX + 1
    requires i < j < |Bundles(b, hash, medium, recipient, n)|
    ensures Bundles(b, hash, medium, recipient, n)[i].transactionIndex
          < Bundles(b, hash, medium, recipient, n)[j].transactionIndex
    decreases n
  {
    var init := Bundles(b, hash, medium, recipient, n - 1);
    if j < |init| {
      BundlesIncrease(b, hash, medium, recipient, n - 1, i, j);
    } else {
      var t := BundleSource(b, hash, medium, recipient, n - 1, i);
    }
  }

  /** A posted message carries its position in the block, up to truncation. */
  lemma {:induction false} AddressedAt(messages: seq<OutgoingMessage>, start: nat, medium: Medium, recipient: ChainId,
                                       j: nat) returns (k: nat)
    requires j < |Addressed(messages, start, medium, recipient)|
    ensures k < |messages| && messages[k].HasDestination(medium, recipient)
    ensures Addressed(messages, start, medium, recipient)[j] == messages[k].IntoPosted(Wrap32(start + k))
  {
    var init := messages[..|messages| - 1];
    if j < |Addressed(init, start, medium, recipient)| {
      k := AddressedAt(init, start, medium, recipient, j);
    } else {
      k := |messages| - 1;
    }
  }

  /**
   * The index of a posted message is its position in the block truncated to 32 bits; looked
   * up in a block of at most two to the power of 32 messages, it leads back to the message.
   */
  lemma PostedIndexFound(b: SentBlock, hash: nat, medium: Medium, recipient: ChainId, i: nat, j: nat)
    returns (k: nat)
    requires i < |Bundles(b, hash, medium, recipient, |b.messages|)|
    requires j < |Bundles(b, hash, medium, recipient, |b.messages|)[i].messages|
    ensures k < |Flat(b.messages)| && Flat(b.messages)[k].HasDestination(medium, recipient)
    ensures Bundles(b, hash, medium, recipient, |b.messages|)[i].messages[j]
         == Flat(b.messages)[k].IntoPosted(Wrap32(k))
    ensures Lookup(b, MessageId(b.chainId, b.height, Wrap32(k))) == Some(Flat(b.messages)[Wrap32(k)])
    ensures |Flat(b.messages)| <= U32_MAX + 1 ==> Wrap32(k) == k
  {
    var t := BundleSource(b, hash, medium, recipient, |b.messages|, i);
    var start := |Flat(b.messages[..t])|;
    var m := AddressedAt(b.messages[t], start, medium, recipient, j);
    FlatAt(b.messages, t, m);
    k := start + m;
  }

  /** No message of the block that is addressed to the recipient is missing from the bundles. */
  lemma AddressedIsBundled(b: SentBlock, hash: nat, medium: Medium, recipient: ChainId, t: nat, i: nat)
    requires t < |b.messages| && i < |b.messages[t]| && b.messages[t][i].HasDestination(medium, recipient)
    ensures BundleOf(b, hash, medium, recipient, t) in Bundles(b, hash, medium, recipient, |b.messages|)
    ensures b.messages[t][i].IntoPosted(Wrap32(|Flat(b.messages[..t])| + i))
            in BundleOf(b, hash, medium, recipient, t).messages
  {
    AddressedContains(b.messages[t], |Flat(b.messages[..t])|, medium, recipient, i);
    BundleListed(b, hash, medium, recipient, t, |b.messages|);
  }

  lemma {:induction false} AddressedContains(messages: seq<OutgoingMessage>, start: nat, medium: Medium,
                                             recipient: ChainId, i: nat)
    requires i < |messages| && messages[i].HasDestination(medium, recipient)
    ensures messages[i].IntoPosted(Wrap32(start + i)) in Addressed(messages, start, medium, recipient)
  {
    if i < |messages| - 1 {
      AddressedContains(messages[..|messages| - 1], start, medium, recipient, i);
    }
  }

  lemma {:induction false} BundleListed(b: SentBlock, hash: nat, medium: Medium, recipient: ChainId, t: nat, n: nat)
    requires t < n <= |b.messages| && BundleOf(b, hash, medium, recipient, t).messages != []
    ensures BundleOf(b, hash, medium, recipient, t) in Bundles(b, hash, medium, recipient, n)
    decreases n
  {
    if t < n - 1 {
      BundleListed(b, hash, medium, recipient, t, n - 1);
    }
  }

  // ---- What a bundle holds, in terms of destinations and fields ----

  /** The message is directed at what the medium and the recipient stand for. */
  predicate DirectedAt(m: OutgoingMessage, medium: Medium, recipient: ChainId) {
    if medium.Direct? then m.destination == Recipient(recipient)
    else
      && m.destination == Subscribers(medium.name)
      && medium.application == (if m.message.UserMessage? then User(m.message.application) else System)
  }

  /** Signer, grant, refund account, kind and content are those of the message. */
  predicate CarriesOver(m: OutgoingMessage, posted: PostedMessage) {
    && posted.authenticatedSigner == m.authenticatedSigner
    && posted.grant == m.grant
    && posted.refundGrantTo == m.refundGrantTo
    && posted.kind == m.kind
    && posted.message == m.message
  }

  /** Every posted message comes from a message of the block that is directed at the recipient, unchanged. */
  lemma PostedComesFrom(b: SentBlock, hash: nat, medium: Medium, recipient: ChainId, i: nat, j: nat) returns (k: nat)
    requires i < |Bundles(b, hash, medium, recipient, |b.messages|)|
    requires j < |Bundles(b, hash, medium, recipient, |b.messages|)[i].messages|
    ensures k < |Flat(b.messages)| && DirectedAt(Flat(b.messages)[k], medium, recipient)
    ensures CarriesOver(Flat(b.messages)[k], Bundles(b, hash, medium, recipient, |b.messages|)[i].messages[j])
    ensures Bundles(b, hash, medium, recipient, |b.messages|)[i].messages[j].index == Wrap32(k)
  {
    k := PostedIndexFound(b, hash, medium, recipient, i, j);
  }

  /** Every message of the block that is directed at the recipient is posted, unchanged. */
  lemma DirectedIsPosted(b: SentBlock, hash: nat, medium: Medium, recipient: ChainId, t: nat, i: nat)
    requires t < |b.messages| && i < |b.messages[t]| && DirectedAt(b.messages[t][i], medium, recipient)
    ensures BundleOf(b, hash, medium, recipient, t) in Bundles(b, hash, medium, recipient, |b.messages|)
    ensures exists posted <- BundleOf(b, hash, medium, recipient, t).messages ::
              CarriesOver(b.messages[t][i], posted) && posted.index == Wrap32(|Flat(b.messages[..t])| + i)
  {
    AddressedIsBundled(b, hash, medium, recipient, t, i);
    var posted := b.messages[t][i].IntoPosted(Wrap32(|Flat(b.messages[..t])| + i));
    assert CarriesOver(b.messages[t][i], posted);
  }
}

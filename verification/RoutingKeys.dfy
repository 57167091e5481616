// Routing keys of the topic exchange messaging.events: builders, parsers and the dispatch order of the consumer.

module RoutingKeys {
  import opened Text

  const DIRECT_PREFIX := "message.user."
  const GROUP_PREFIX := "message.group."
  const CALL_PREFIX := "message.call.user."
  const RECEIPT_PREFIX := "message.receipt."

  function DirectKey(userId: string): string { DIRECT_PREFIX + userId }

  function GroupKey(groupId: string): string { GROUP_PREFIX + groupId }

  function CallKey(calleeId: string): string { CALL_PREFIX + calleeId }

  function ReceiptKey(userId: string): string { RECEIPT_PREFIX + userId }

  // The shape shared by the four parsers: the prefix, then a non-blank id, trimmed.
  function ParseAfter(prefix: string, key: string): Option<string> {
    if !(prefix <= key) then None
    else
      var id := Trim(key[|prefix|..]);
      if |id| > 0 then Some(id) else None
  }

  function ParseDirect(key: string): Option<string> { ParseAfter(DIRECT_PREFIX, key) }

  function ParseGroup(key: string): Option<string> { ParseAfter(GROUP_PREFIX, key) }

  function ParseCallIncoming(key: string): Option<string> { ParseAfter(CALL_PREFIX, key) }

  function ParseReceipt(key: string): Option<string> { ParseAfter(RECEIPT_PREFIX, key) }

  datatype Route = ToReceipt(id: string) | ToCall(id: string) | ToGroup(id: string) | ToDirect(id: string) | Skip

  // The consumer asks the parsers one after the other and takes the first that answers.
  function Dispatch(key: string): Route {
    match ParseReceipt(key)
    case Some(id) => ToReceipt(id)
    case None =>
      match ParseCallIncoming(key)
      case Some(id) => ToCall(id)
      case None =>
        match ParseGroup(key)
        case Some(id) => ToGroup(id)
        case None =>
          match ParseDirect(key)
          case Some(id) => ToDirect(id)
          case None => Skip
  }

  // A key that starts with one of the prefixes starts with no other: the ninth character tells them apart.
  lemma PrefixesApart(key: string)
    ensures DIRECT_PREFIX <= key ==> |key| > 8 && key[8] == 'u'
    ensures GROUP_PREFIX <= key ==> |key| > 8 && key[8] == 'g'
    ensures CALL_PREFIX <= key ==> |key| > 8 && key[8] == 'c'
    ensures RECEIPT_PREFIX <= key ==> |key| > 8 && key[8] == 'r'
  {
    assert DIRECT_PREFIX[8] == 'u' && GROUP_PREFIX[8] == 'g';
    assert CALL_PREFIX[8] == 'c' && RECEIPT_PREFIX[8] == 'r';
  }

  // At most one parser answers, so the order in which the consumer asks them does not matter:
  // each parser answers exactly on the keys that Dispatch gives it.
  lemma ParsersDisjoint(key: string)
    ensures forall id :: ParseReceipt(key) == Some(id) <==> Dispatch(key) == ToReceipt(id)
    ensures forall id :: ParseCallIncoming(key) == Some(id) <==> Dispatch(key) == ToCall(id)
    ensures forall id :: ParseGroup(key) == Some(id) <==> Dispatch(key) == ToGroup(id)
    ensures forall id :: ParseDirect(key) == Some(id) <==> Dispatch(key) == ToDirect(id)
  {
    PrefixesApart(key);
  }

  lemma AfterPrefix(prefix: string, id: string)
    ensures ParseAfter(prefix, prefix + id) == if Trim(id) == "" then None else Some(Trim(id))
  {
    assert (prefix + id)[|prefix|..] == id;
  }

  // Every built key is dispatched to its own kind under the trimmed id, and a blank id is skipped.
  lemma BuiltKeysDispatch(id: string)
    ensures Dispatch(DirectKey(id)) == if Trim(id) == "" then Skip else ToDirect(Trim(id))
    ensures Dispatch(GroupKey(id)) == if Trim(id) == "" then Skip else ToGroup(Trim(id))
    ensures Dispatch(CallKey(id)) == if Trim(id) == "" then Skip else ToCall(Trim(id))
    ensures Dispatch(ReceiptKey(id)) == if Trim(id) == "" then Skip else ToReceipt(Trim(id))
  {
    AfterPrefix(DIRECT_PREFIX, id);
    AfterPrefix(GROUP_PREFIX, id);
    AfterPrefix(CALL_PREFIX, id);
    AfterPrefix(RECEIPT_PREFIX, id);
    PrefixesApart(DirectKey(id));
    PrefixesApart(GroupKey(id));
    PrefixesApart(CallKey(id));
    PrefixesApart(ReceiptKey(id));
  }

  // The parsers invert the builders exactly on clean ids.
  lemma RoundTripExactlyOnCleanIds(id: string)
    ensures Dispatch(DirectKey(id)) == ToDirect(id) <==> CleanId(id)
    ensures Dispatch(GroupKey(id)) == ToGroup(id) <==> CleanId(id)
    ensures Dispatch(CallKey(id)) == ToCall(id) <==> CleanId(id)
    ensures Dispatch(ReceiptKey(id)) == ToReceipt(id) <==> CleanId(id)
  {
    BuiltKeysDispatch(id);
    TrimIsTrimmed(id);
  }

  // The other direction, for one prefix: a key that parses is the prefix and an id that trims to the result.
  lemma ParsedComesFromBuilder(prefix: string, key: string)
    requires ParseAfter(prefix, key).Some?
    ensures prefix <= key && key == prefix + key[|prefix|..]
    ensures Trim(key[|prefix|..]) == ParseAfter(prefix, key).value && CleanId(ParseAfter(prefix, key).value)
  {
    TrimIsTrimmed(key[|prefix|..]);
    hide Trim;
  }

  // Nothing but a built key is ever dispatched to a user.
  lemma DispatchComesFromBuilder(key: string)
    ensures Dispatch(key).ToDirect? ==>
              var id := Dispatch(key).id;
              CleanId(id) && exists raw :: key == DirectKey(raw) && Trim(raw) == id
    ensures Dispatch(key).ToReceipt? ==>
              var id := Dispatch(key).id;
              CleanId(id) && exists raw :: key == ReceiptKey(raw) && Trim(raw) == id
    ensures Dispatch(key).ToGroup? ==>
              var id := Dispatch(key).id;
              CleanId(id) && exists raw :: key == GroupKey(raw) && Trim(raw) == id
    ensures Dispatch(key).ToCall? ==>
              var id := Dispatch(key).id;
              CleanId(id) && exists raw :: key == CallKey(raw) && Trim(raw) == id
  {
    hide ParseAfter, Trim;
    match Dispatch(key)
    case ToDirect(id) => ParsedComesFromBuilder(DIRECT_PREFIX, key);
    case ToReceipt(id) => ParsedComesFromBuilder(RECEIPT_PREFIX, key);
    case ToGroup(id) => ParsedComesFromBuilder(GROUP_PREFIX, key);
    case ToCall(id) => ParsedComesFromBuilder(CALL_PREFIX, key);
    case Skip =>
  }
}

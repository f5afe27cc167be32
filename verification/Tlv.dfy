/**
 Scanning the Token-2022 extensions of a mint: after the base account, a list of entries, each a
 two-byte type, a two-byte length and that many bytes of payload.
 */
module Tlv {
  import opened Words

  type byte = n: int | 0 <= n < 256

  /** An extension type by its number; 28 of them are known. */
  type ExtensionType = t: int | 0 <= t < 28

  const TRANSFER_FEE_CONFIG: ExtensionType := 1
  const MINT_CLOSE_AUTHORITY: ExtensionType := 3
  const CONFIDENTIAL_TRANSFER_MINT: ExtensionType := 4
  const DEFAULT_ACCOUNT_STATE: ExtensionType := 6
  const INTEREST_BEARING_CONFIG: ExtensionType := 10
  const PERMANENT_DELEGATE: ExtensionType := 12
  const TRANSFER_HOOK: ExtensionType := 14
  const METADATA_POINTER: ExtensionType := 18
  const TOKEN_METADATA: ExtensionType := 19
  const GROUP_POINTER: ExtensionType := 20
  const TOKEN_GROUP: ExtensionType := 21
  const GROUP_MEMBER_POINTER: ExtensionType := 22
  const TOKEN_GROUP_MEMBER: ExtensionType := 23
  const CONFIDENTIAL_MINT_BURN: ExtensionType := 24
  const SCALED_UI_AMOUNT: ExtensionType := 25
  const PAUSABLE: ExtensionType := 26

  const VALID_MINT_EXTENSIONS: seq<ExtensionType> := [
    INTEREST_BEARING_CONFIG, SCALED_UI_AMOUNT, TRANSFER_FEE_CONFIG, MINT_CLOSE_AUTHORITY,
    PERMANENT_DELEGATE, DEFAULT_ACCOUNT_STATE, CONFIDENTIAL_TRANSFER_MINT, CONFIDENTIAL_MINT_BURN,
    METADATA_POINTER, TOKEN_METADATA, GROUP_POINTER, TOKEN_GROUP, GROUP_MEMBER_POINTER,
    TOKEN_GROUP_MEMBER, TRANSFER_HOOK, PAUSABLE]

  const MINT_BASE_LEN: nat := 82
  const EXTENSIONS_START: nat := 82 + 83 + 1
  const PAUSABLE_LEN: nat := 33
  const TRANSFER_HOOK_LEN: nat := 64

  /** How a scan ends: with a value, with `InvalidAccountData`, or with a slice out of bounds. */
  datatype Scan<+T> = Done(value: T) | Invalid | Panicked

  function FromLe(lo: byte, hi: byte): nat {
    lo + 256 * hi
  }

  function FromBytes(lo: byte, hi: byte): Option<ExtensionType> {
    if FromLe(lo, hi) < 28 then Some(FromLe(lo, hi)) else None
  }

  // ---------- the two scanners ----------

  /** What follows the first entry; an entry cut short by the end of the buffer ends the list. */
  function Rest(bytes: seq<byte>): seq<byte>
    requires |bytes| >= 4
  {
    var next := 4 + FromLe(bytes[2], bytes[3]);
    if next >= |bytes| then [] else bytes[next..]
  }

  function TypesIn(bytes: seq<byte>): Scan<seq<ExtensionType>>
    decreases |bytes|
  {
    if bytes == [] then Done([])
    else if |bytes| < 2 then Panicked
    else if FromBytes(bytes[0], bytes[1]).None? then Invalid
    else if |bytes| < 4 then Panicked
    else
      var rest := TypesIn(Rest(bytes));
      if rest.Done? then Done([FromBytes(bytes[0], bytes[1]).value] + rest.value) else rest
  }

  function Lookup(bytes: seq<byte>, kind: ExtensionType, len: nat): Scan<Option<seq<byte>>>
    decreases |bytes|
  {
    if bytes == [] then Done(None)
    else if |bytes| < 2 then Panicked
    else if FromBytes(bytes[0], bytes[1]).None? then Done(None)
    else if |bytes| < 4 then Panicked
    else if FromBytes(bytes[0], bytes[1]) == Some(kind) && FromLe(bytes[2], bytes[3]) == len then
      if |bytes| < 4 + len then Panicked else Done(Some(bytes[4..4 + len]))
    else Lookup(Rest(bytes), kind, len)
  }

  function Prepended(types: seq<ExtensionType>, rest: Scan<seq<ExtensionType>>): Scan<seq<ExtensionType>> {
    if rest.Done? then Done(types + rest.value) else rest
  }

  lemma PrependedEmpty(types: seq<ExtensionType>, rest: Scan<seq<ExtensionType>>)
    ensures Prepended([], rest) == rest && Prepended(types, Done([])) == Done(types)
  {
    assert rest.Done? ==> [] + rest.value == rest.value;
    assert types + [] == types;
  }

  lemma PrependedOne(types: seq<ExtensionType>, kind: ExtensionType, rest: Scan<seq<ExtensionType>>)
    ensures Prepended(types, Prepended([kind], rest)) == Prepended(types + [kind], rest)
  {
    if rest.Done? {
      assert types + ([kind] + rest.value) == types + [kind] + rest.value;
    }
  }

  function From(bytes: seq<byte>, start: nat): seq<byte> {
    if start >= |bytes| then [] else bytes[start..]
  }

  method GetAllExtensionsForMint(data: seq<byte>) returns (r: Scan<seq<ExtensionType>>)
    ensures r == if |data| < EXTENSIONS_START then Panicked else TypesIn(data[EXTENSIONS_START..])
  {
    if |data| < EXTENSIONS_START { return Panicked; }
    var bytes := data[EXTENSIONS_START..];
    var types: seq<ExtensionType> := [];
    var start := 0;
    PrependedEmpty(types, TypesIn(bytes));
    while start < |bytes|
      invariant 0 <= start
      invariant TypesIn(bytes) == Prepended(types, TypesIn(From(bytes, start)))
      decreases |bytes| - start
    {
      ghost var left := From(bytes, start);
      if start + 2 > |bytes| { return Panicked; }
      var kind := FromBytes(bytes[start], bytes[start + 1]);
      if kind.None? { return Invalid; }
      if start + 4 > |bytes| { return Panicked; }
      ghost var before := types;
      types := types + [kind.value];
      start := start + 4 + FromLe(bytes[start + 2], bytes[start + 3]);
      assert Rest(left) == From(bytes, start);
      PrependedOne(before, kind.value, TypesIn(Rest(left)));
    }
    PrependedEmpty(types, Done([]));
    return Done(types);
  }

  lemma HeadFrom(bytes: seq<byte>, start: nat)
    requires start < |bytes|
    ensures var left := From(bytes, start);
            |left| == |bytes| - start && forall k :: 0 <= k < 4 && k < |left| ==> left[k] == bytes[start + k]
  {
  }

  lemma RestFrom(bytes: seq<byte>, start: nat)
    requires start + 4 <= |bytes|
    ensures |From(bytes, start)| >= 4
    ensures Rest(From(bytes, start)) == From(bytes, start + 4 + FromLe(bytes[start + 2], bytes[start + 3]))
  {
  }

  lemma SliceOfDrop(bytes: seq<byte>, start: nat, lo: nat, hi: nat)
    requires lo <= hi && start + hi <= |bytes|
    ensures bytes[start..][lo..hi] == bytes[start + lo..start + hi]
  {
  }

  method GetExtension(data: seq<byte>, kind: ExtensionType, len: nat) returns (r: Scan<Option<seq<byte>>>)
    ensures r == if |data| < EXTENSIONS_START then Panicked else Lookup(data[EXTENSIONS_START..], kind, len)
  {
    hide FromLe, FromBytes, Rest;
    if |data| < EXTENSIONS_START { return Panicked; }
    var bytes := data[EXTENSIONS_START..];
    var start := 0;
    while start < |bytes|
      invariant 0 <= start
      invariant Lookup(bytes, kind, len) == Lookup(From(bytes, start), kind, len)
      decreases |bytes| - start
    {
      ghost var entry := start;
      HeadFrom(bytes, start);
      if start + 2 > |bytes| { return Panicked; }
      var found := FromBytes(bytes[start], bytes[start + 1]);
      if found.None? { return Done(None); }
      if start + 4 > |bytes| { return Panicked; }
      var foundLen := FromLe(bytes[start + 2], bytes[start + 3]);
      if found.value == kind && foundLen == len {
        if start + 4 + len > |bytes| { return Panicked; }
        SliceOfDrop(bytes, start, 4, 4 + len);
        return Done(Some(bytes[start + 4..start + 4 + len]));
      }
      start := start + 4 + foundLen;
      RestFrom(bytes, entry);
    }
    return Done(None);
  }

  // ---------- complete buffers ----------

  datatype Entry = Entry(kind: ExtensionType, payload: seq<byte>)

  ghost predicate Encodable(entries: seq<Entry>) {
    forall i :: 0 <= i < |entries| ==> |entries[i].payload| < 65536
  }

  /** Type and length, each little-endian in two bytes. */
  function Header(kind: ExtensionType, len: nat): (header: seq<byte>)
    requires len < 65536
    ensures |header| == 4
    ensures FromBytes(header[0], header[1]) == Some(kind) && FromLe(header[2], header[3]) == len
  {
    [kind % 256, kind / 256, len % 256, len / 256]
  }

  function EncodeEntry(e: Entry): seq<byte>
    requires |e.payload| < 65536
  {
    Header(e.kind, |e.payload|) + e.payload
  }

  function Encode(entries: seq<Entry>): seq<byte>
    requires Encodable(entries)
  {
    if entries == [] then [] else EncodeEntry(entries[0]) + Encode(entries[1..])
  }

  function Kinds(entries: seq<Entry>): seq<ExtensionType> {
    seq(|entries|, i requires 0 <= i < |entries| => entries[i].kind)
  }

  /** The payload of the first entry with this type and length. */
  function FirstSized(entries: seq<Entry>, kind: ExtensionType, len: nat): Option<seq<byte>> {
    if entries == [] then None
    else if entries[0].kind == kind && |entries[0].payload| == len then Some(entries[0].payload)
    else FirstSized(entries[1..], kind, len)
  }

  lemma Parts(header: seq<byte>, payload: seq<byte>, rest: seq<byte>)
    requires |header| == 4
    ensures var bytes := header + payload + rest;
            && (forall k :: 0 <= k < 4 ==> bytes[k] == header[k])
            && bytes[4..4 + |payload|] == payload && bytes[4 + |payload|..] == rest
  {
  }

  lemma EncodedHead(entries: seq<Entry>)
    requires Encodable(entries) && entries != []
    ensures var bytes := Encode(entries); var e := entries[0];
            && |bytes| >= 4 + |e.payload|
            && FromBytes(bytes[0], bytes[1]) == Some(e.kind) && FromLe(bytes[2], bytes[3]) == |e.payload|
            && bytes[4..4 + |e.payload|] == e.payload && Rest(bytes) == Encode(entries[1..])
  {
    hide FromLe, FromBytes, Header;
    var e := entries[0];
    Parts(Header(e.kind, |e.payload|), e.payload, Encode(entries[1..]));
  }

  /** Scanning an encoded list gives its types, in order. */
  lemma {:induction false} ScanEncoded(entries: seq<Entry>)
    requires Encodable(entries)
    ensures TypesIn(Encode(entries)) == Done(Kinds(entries))
  {
    if entries != [] {
      EncodedHead(entries);
      ScanEncoded(entries[1..]);
      assert Kinds(entries) == [entries[0].kind] + Kinds(entries[1..]);
    }
  }

  lemma {:induction false} LookupEncoded(entries: seq<Entry>, kind: ExtensionType, len: nat)
    requires Encodable(entries)
    ensures Lookup(Encode(entries), kind, len) == Done(FirstSized(entries, kind, len))
  {
    if entries != [] {
      EncodedHead(entries);
      LookupEncoded(entries[1..], kind, len);
    }
  }

  ghost predicate IsSized(e: Entry, kind: ExtensionType, len: nat) {
    e.kind == kind && |e.payload| == len
  }

  /** The lookup succeeds exactly when some entry has the type and the length, and returns the first. */
  lemma {:induction false} FirstSizedIsFirst(entries: seq<Entry>, kind: ExtensionType, len: nat)
    ensures FirstSized(entries, kind, len).Some? <==> exists i :: 0 <= i < |entries| && IsSized(entries[i], kind, len)
    ensures forall i :: 0 <= i < |entries| && IsSized(entries[i], kind, len)
                        && (forall j :: 0 <= j < i ==> !IsSized(entries[j], kind, len))
                        ==> FirstSized(entries, kind, len) == Some(entries[i].payload)
  {
    if entries != [] {
      FirstSizedIsFirst(entries[1..], kind, len);
      assert forall i :: 0 < i < |entries| ==> entries[i] == entries[1..][i - 1];
      if !IsSized(entries[0], kind, len) {
        forall i | 0 <= i < |entries| && IsSized(entries[i], kind, len)
                   && (forall j :: 0 <= j < i ==> !IsSized(entries[j], kind, len))
          ensures FirstSized(entries, kind, len) == Some(entries[i].payload)
        {
          assert IsSized(entries[1..][i - 1], kind, len);
          assert forall j :: 0 <= j < i - 1 ==> entries[1..][j] == entries[j + 1];
        }
      }
    }
  }

  // ---------- any buffer ----------

  /** A little-endian number of two bytes. */
  function Word(bytes: seq<byte>, at: nat): nat
    requires at + 1 < |bytes|
  {
    (bytes[at] as int) + 256 * (bytes[at + 1] as int)
  }

  /** `bytes` begins with an entry of a known type, payload and all. */
  predicate BeginsWithEntry(bytes: seq<byte>) {
    && |bytes| >= 4 && Word(bytes, 0) < 28
    && 4 + Word(bytes, 2) <= |bytes|
  }

  /** Any buffer is a list of entries and a tail that begins with none. */
  lemma {:induction false} EveryBuffer(bytes: seq<byte>)
    ensures exists entries, tail :: Encodable(entries) && bytes == Encode(entries) + tail && !BeginsWithEntry(tail)
    decreases |bytes|
  {
    hide Encode, EncodeEntry, Encodable;
    if BeginsWithEntry(bytes) {
      var len := Word(bytes, 2);
      var first := Entry(Word(bytes, 0), bytes[4..4 + len]);
      EntryParsed(bytes, first);
      EveryBuffer(bytes[4 + len..]);
      var entries, tail :|
        Encodable(entries) && bytes[4 + len..] == Encode(entries) + tail && !BeginsWithEntry(tail);
      EntryAdded(first, entries, tail);
      assert Encodable([first] + entries) && bytes == Encode([first] + entries) + tail;
    } else {
      NoEntries(bytes);
    }
  }

  lemma NoEntries(bytes: seq<byte>)
    ensures Encodable([]) && Encode([]) + bytes == bytes
  {
  }

  lemma EntryParsed(bytes: seq<byte>, e: Entry)
    requires BeginsWithEntry(bytes) && e.kind == Word(bytes, 0)
    requires e.payload == bytes[4..4 + Word(bytes, 2)]
    ensures |e.payload| < 65536 && bytes == EncodeEntry(e) + bytes[4 + |e.payload|..]
  {
    assert bytes[..4] == Header(e.kind, |e.payload|);
  }

  lemma EntryAdded(first: Entry, entries: seq<Entry>, tail: seq<byte>)
    requires |first.payload| < 65536 && Encodable(entries)
    ensures Encodable([first] + entries)
    ensures Encode([first] + entries) + tail == EncodeEntry(first) + (Encode(entries) + tail)
  {
    assert ([first] + entries)[1..] == entries;
  }

  lemma EncodedHeadBefore(entries: seq<Entry>, tail: seq<byte>)
    requires Encodable(entries) && entries != []
    ensures var bytes := Encode(entries) + tail; var e := entries[0];
            && |bytes| >= 4 + |e.payload|
            && FromBytes(bytes[0], bytes[1]) == Some(e.kind) && FromLe(bytes[2], bytes[3]) == |e.payload|
            && bytes[4..4 + |e.payload|] == e.payload && Rest(bytes) == Encode(entries[1..]) + tail
  {
    hide FromLe, FromBytes, Header;
    var e := entries[0];
    var rest := Encode(entries[1..]) + tail;
    assert Encode(entries) + tail == Header(e.kind, |e.payload|) + e.payload + rest;
    Parts(Header(e.kind, |e.payload|), e.payload, rest);
  }

  /** How a scan ends in the tail: out of bounds where type or length are cut short, in error at an unknown type,
      and with the last type where only the payload is cut short. */
  function Ending(tail: seq<byte>): Scan<seq<ExtensionType>> {
    if tail == [] then Done([])
    else if |tail| == 1 then Panicked
    else if Word(tail, 0) >= 28 then Invalid
    else if |tail| < 4 then Panicked
    else Done([Word(tail, 0)])
  }

  lemma EndingScanned(tail: seq<byte>)
    requires !BeginsWithEntry(tail)
    ensures TypesIn(tail) == Ending(tail)
  {
    if |tail| >= 4 && Word(tail, 0) < 28 {
      assert Rest(tail) == [];
      PrependedEmpty([Word(tail, 0)], Done([]));
    }
  }

  lemma PrependedTwice(types: seq<ExtensionType>, more: seq<ExtensionType>, rest: Scan<seq<ExtensionType>>)
    ensures Prepended(types, Prepended(more, rest)) == Prepended(types + more, rest)
  {
    if rest.Done? {
      assert types + (more + rest.value) == types + more + rest.value;
    }
  }

  /** Scanning any buffer gives the types of its entries, as far as its ending lets it. */
  lemma {:induction false} ScanOfAny(entries: seq<Entry>, tail: seq<byte>)
    requires Encodable(entries) && !BeginsWithEntry(tail)
    ensures TypesIn(Encode(entries) + tail) == Prepended(Kinds(entries), Ending(tail))
  {
    hide Rest, FromLe, FromBytes, Ending, BeginsWithEntry;
    if entries == [] {
      assert Encode(entries) + tail == tail && Kinds(entries) == [];
      EndingScanned(tail);
      PrependedEmpty([], Ending(tail));
    } else {
      EncodedHeadBefore(entries, tail);
      ScanOfAny(entries[1..], tail);
      assert Kinds(entries) == [entries[0].kind] + Kinds(entries[1..]);
      PrependedTwice([entries[0].kind], Kinds(entries[1..]), Ending(tail));
    }
  }

  /** How a lookup ends: with the first fitting entry; failing that, it finds nothing at an unknown type and at a
      payload cut short, unless that is the entry sought, and runs out of bounds otherwise. */
  lemma {:induction false} LookupInAny(entries: seq<Entry>, tail: seq<byte>, kind: ExtensionType, len: nat)
    requires Encodable(entries) && !BeginsWithEntry(tail)
    ensures Lookup(Encode(entries) + tail, kind, len) ==
              if FirstSized(entries, kind, len).Some? || tail == [] then Done(FirstSized(entries, kind, len))
              else if |tail| == 1 then Panicked
              else if Word(tail, 0) >= 28 then Done(None)
              else if |tail| < 4 then Panicked
              else if Word(tail, 0) == kind && Word(tail, 2) == len then Panicked
              else Done(None)
  {
    if entries == [] {
      assert Encode(entries) + tail == tail;
    } else {
      EncodedHeadBefore(entries, tail);
      LookupInAny(entries[1..], tail, kind, len);
    }
  }

  // ---------- the mint check ----------

  datatype Verdict = Accepted | Rejected | Crashed

  /** The configuration read for a Pausable or TransferHook entry: missing is an error. */
  function CheckConfig(found: Scan<Option<seq<byte>>>, bad: seq<byte> -> bool): Verdict {
    if !found.Done? then Crashed
    else if found.value.None? || bad(found.value.value) then Rejected
    else Accepted
  }

  predicate IsPaused(config: seq<byte>) {
    |config| > 32 && config[32] > 0
  }

  predicate HasHookProgram(config: seq<byte>) {
    !forall i :: 32 <= i < 64 && i < |config| ==> config[i] == 0
  }

  function CheckExtension(bytes: seq<byte>, blocked: seq<ExtensionType>, kind: ExtensionType): Verdict {
    if kind in blocked || kind !in VALID_MINT_EXTENSIONS then Rejected
    else if kind == PAUSABLE then CheckConfig(Lookup(bytes, PAUSABLE, PAUSABLE_LEN), IsPaused)
    else if kind == TRANSFER_HOOK then CheckConfig(Lookup(bytes, TRANSFER_HOOK, TRANSFER_HOOK_LEN), HasHookProgram)
    else Accepted
  }

  function CheckExtensions(bytes: seq<byte>, blocked: seq<ExtensionType>, kinds: seq<ExtensionType>): Verdict {
    if kinds == [] then Accepted else
      var first := CheckExtension(bytes, blocked, kinds[0]);
      if first.Accepted? then CheckExtensions(bytes, blocked, kinds[1..]) else first
  }

  function MintVerdict(isToken2022: bool, data: seq<byte>, blocked: seq<ExtensionType>): Verdict {
    if !isToken2022 || |data| <= MINT_BASE_LEN then Accepted
    else if |data| < EXTENSIONS_START then Crashed
    else
      var bytes := data[EXTENSIONS_START..];
      match TypesIn(bytes)
      case Done(kinds) => CheckExtensions(bytes, blocked, kinds)
      case Invalid => Rejected
      case Panicked => Crashed
  }

  method ValidateMintExtensions(isToken2022: bool, data: seq<byte>, blocked: seq<ExtensionType>) returns (r: Verdict)
    ensures r == MintVerdict(isToken2022, data, blocked)
    ensures !isToken2022 || |data| <= 82 ==> r.Accepted?
    ensures isToken2022 && 82 < |data| < 166 ==> r.Crashed?
  {
    if !isToken2022 || |data| <= MINT_BASE_LEN { return Accepted; }
    var types := GetAllExtensionsForMint(data);
    if types.Panicked? { return Crashed; }
    if types.Invalid? { return Rejected; }
    ghost var bytes := data[EXTENSIONS_START..];
    for i := 0 to |types.value|
      invariant CheckExtensions(bytes, blocked, types.value) == CheckExtensions(bytes, blocked, types.value[i..])
    {
      var kind := types.value[i];
      assert types.value[i..][0] == kind && types.value[i..][1..] == types.value[i + 1..];
      if kind in blocked { return Rejected; }
      if kind !in VALID_MINT_EXTENSIONS { return Rejected; }
      if kind == PAUSABLE {
        var config := GetExtension(data, PAUSABLE, PAUSABLE_LEN);
        if !config.Done? { return Crashed; }
        if config.value.None? || IsPaused(config.value.value) { return Rejected; }
      } else if kind == TRANSFER_HOOK {
        var config := GetExtension(data, TRANSFER_HOOK, TRANSFER_HOOK_LEN);
        if !config.Done? { return Crashed; }
        if config.value.None? || HasHookProgram(config.value.value) { return Rejected; }
      }
    }
    return Accepted;
  }

  lemma {:induction false} AcceptedEach(bytes: seq<byte>, blocked: seq<ExtensionType>, kinds: seq<ExtensionType>)
    ensures CheckExtensions(bytes, blocked, kinds).Accepted?
       <==> forall k :: k in kinds ==> CheckExtension(bytes, blocked, k).Accepted?
  {
    if kinds != [] {
      AcceptedEach(bytes, blocked, kinds[1..]);
      assert forall k :: k in kinds <==> k == kinds[0] || k in kinds[1..];
    }
  }

  /** The flag is the last byte of 33. */
  ghost predicate Unpaused(entries: seq<Entry>) {
    var config := FirstSized(entries, 26, 33);
    config.Some? && |config.value| == 33 && config.value[32] == 0
  }

  /** The program is named in the last 32 bytes of 64. */
  ghost predicate NullHook(entries: seq<Entry>) {
    var config := FirstSized(entries, 14, 64);
    config.Some? && |config.value| == 64 && forall i :: 32 <= i < 64 ==> config.value[i] == 0
  }

  /** Types by their numbers: 26 is Pausable, 14 is TransferHook. */
  ghost predicate AllowedExtension(entries: seq<Entry>, blocked: seq<ExtensionType>, kind: ExtensionType) {
    && kind in {1, 3, 4, 6, 10, 12, 14, 18, 19, 20, 21, 22, 23, 24, 25, 26} && kind !in blocked
    && (kind == 26 ==> Unpaused(entries))
    && (kind == 14 ==> NullHook(entries))
  }

  lemma FirstSizedLength(entries: seq<Entry>, kind: ExtensionType, len: nat)
    ensures FirstSized(entries, kind, len).Some? ==> |FirstSized(entries, kind, len).value| == len
  {
  }

  lemma CheckExtensionEncoded(entries: seq<Entry>, blocked: seq<ExtensionType>, kind: ExtensionType)
    requires Encodable(entries)
    ensures CheckExtension(Encode(entries), blocked, kind).Accepted? <==> AllowedExtension(entries, blocked, kind)
  {
    hide FirstSized, Lookup;
    LookupEncoded(entries, 26, 33);
    LookupEncoded(entries, 14, 64);
    FirstSizedLength(entries, 26, 33);
    FirstSizedLength(entries, 14, 64);
  }

  /** A mint with a complete extension list is accepted exactly when every extension is allowed and
      none is blocked, the first well-sized Pausable (if any entry is one) is not paused, and the
      first well-sized TransferHook names no program. */
  lemma AcceptedMint(base: seq<byte>, entries: seq<Entry>, blocked: seq<ExtensionType>)
    requires |base| == 166 && Encodable(entries)
    ensures MintVerdict(true, base + Encode(entries), blocked).Accepted?
       <==> forall i :: 0 <= i < |entries| ==> AllowedExtension(entries, blocked, entries[i].kind)
  {
    hide Encode, Encodable, AllowedExtension, CheckExtension, TypesIn, CheckExtensions;
    var bytes := Encode(entries);
    assert (base + bytes)[EXTENSIONS_START..] == bytes;
    ScanEncoded(entries);
    AcceptedEach(bytes, blocked, Kinds(entries));
    forall kind: ExtensionType
      ensures CheckExtension(bytes, blocked, kind).Accepted? <==> AllowedExtension(entries, blocked, kind)
    {
      CheckExtensionEncoded(entries, blocked, kind);
    }
    forall i | 0 <= i < |entries| ensures entries[i].kind in Kinds(entries) {
      assert Kinds(entries)[i] == entries[i].kind;
    }
  }
}

/** Signal subscriptions: the match rule given to the bus, the same decision taken locally, and the
    fan-out of a signal to the subscribers of a connection. */
module Signals {
  import opened Wrappers

  import ObjectPaths

  // ----- messages -----

  datatype Arg = Text(text: string) | Other

  datatype MessageType = MethodCall | MethodReturn | Error | Signal

  datatype Message = Message(
    kind: MessageType, interface: Option<string>, member: Option<string>, path: Option<string>, args: seq<Arg>)

  /** `dbus_message_is_signal`. */
  predicate IsSignal(msg: Message, interface: string, member: string) {
    msg.kind.Signal? && msg.interface == Some(interface) && msg.member == Some(member)
  }

  /** `dbus_message_get_args` with `n` strings: further arguments are ignored. */
  predicate HasTexts(msg: Message, n: nat) {
    |msg.args| >= n && forall i :: 0 <= i < n ==> msg.args[i].Text?
  }

  // ----- match rules -----

  datatype Entry = Entry(key: string, value: string)

  function Quoted(e: Entry): string {
    e.key + "='" + e.value + "'"
  }

  function RuleText(rule: seq<Entry>): string {
    if rule == [] then ""
    else if |rule| == 1 then Quoted(rule[0])
    else Quoted(rule[0]) + "," + RuleText(rule[1..])
  }

  /** The value read from a rule, what follows it, and whether a comma stood between. */
  datatype Token = Token(value: string, rest: string, more: bool)

  function Prepend(c: char, t: Option<Token>): Option<Token> {
    match t
    case None => None
    case Some(token) => Some(token.(value := [c] + token.value))
  }

  /** Quoting in the D-Bus Specification, section "Match Rules": an apostrophe opens or closes a
      quoted part, in which everything else stands for itself; outside of it a backslash before an
      apostrophe makes it literal, and a comma ends the value. */
  function Read(s: string, quoted: bool): (t: Option<Token>)
    ensures t.Some? ==> |t.value.value| + |t.value.rest| + (if t.value.more then 1 else 0) + (if quoted then 1 else 0) <= |s|
    decreases |s|
  {
    if s == "" then (if quoted then None else Some(Token("", "", false)))
    else if s[0] == '\'' then Read(s[1..], !quoted)
    else if quoted then Prepend(s[0], Read(s[1..], true))
    else if s[0] == ',' then Some(Token("", s[1..], true))
    else if |s| > 1 && s[0] == '\\' && s[1] == '\'' then Prepend('\'', Read(s[2..], false))
    else Prepend(s[0], Read(s[1..], false))
  }

  function KeyEnd(s: string): (n: nat)
    ensures n <= |s|
  {
    if s == "" || s[0] == '=' then 0 else 1 + KeyEnd(s[1..])
  }

  /** What the bus makes of the text of a rule. */
  function Parse(s: string): Option<seq<Entry>>
    decreases |s|
  {
    if s == "" then Some([])
    else if KeyEnd(s) == |s| then None
    else
      match Read(s[KeyEnd(s) + 1..], false)
      case None => None
      case Some(t) =>
        if t.more then Preceded(Entry(s[..KeyEnd(s)], t.value), Parse(t.rest)) else Some([Entry(s[..KeyEnd(s)], t.value)])
  }

  function Preceded(e: Entry, rest: Option<seq<Entry>>): Option<seq<Entry>> {
    match rest
    case None => None
    case Some(entries) => Some([e] + entries)
  }

  predicate Free(s: string, c: char) {
    forall i :: 0 <= i < |s| ==> s[i] != c
  }

  lemma {:induction false} KeyEndOf(key: string, rest: string)
    requires Free(key, '=')
    ensures KeyEnd(key + "=" + rest) == |key|
  {
    var s := key + "=" + rest;
    if key != "" {
      assert s[1..] == key[1..] + "=" + rest;
      KeyEndOf(key[1..], rest);
    }
  }

  /** Inside quotes, a value without apostrophes is read as it is. */
  lemma {:induction false} ReadQuoted(value: string, after: string)
    requires Free(value, '\'') && (after == "" || after[0] == ',')
    ensures Read(value + "'" + after, true)
            == Some(Token(value, if after == "" then "" else after[1..], after != ""))
  {
    var s := value + "'" + after;
    if value == "" {
      assert s[1..] == after;
    } else {
      assert s[0] == value[0] && s[1..] == value[1..] + "'" + after;
      assert value == [value[0]] + value[1..];
      ReadQuoted(value[1..], after);
    }
  }

  lemma QuotedParts(e: Entry, after: string)
    requires Free(e.key, '=')
    ensures var s := Quoted(e) + after;
            KeyEnd(s) == |e.key| < |s| && s[..|e.key|] == e.key && Read(s[|e.key| + 1..], false) == Read(e.value + "'" + after, true)
  {
    var s := Quoted(e) + after;
    KeyEndOf(e.key, "'" + e.value + "'" + after);
    assert s == e.key + "=" + ("'" + e.value + "'" + after);
    var v := s[|e.key| + 1..];
    assert v == "'" + (e.value + "'" + after);
    assert v[1..] == e.value + "'" + after;
  }

  /** Reading an unquoted text without losing a character means it held no apostrophe. */
  lemma {:induction false} LosslessMeansFree(s: string)
    requires Read(s, false).Some?
    requires var t := Read(s, false).value; |t.value| == |s|
    ensures Free(s, '\'')
    decreases |s|
  {
    if s != "" {
      LosslessMeansFree(s[1..]);
      assert forall i :: 1 <= i < |s| ==> s[i] == s[1..][i - 1];
    }
  }

  lemma SplitAtApostrophe(value: string, k: nat)
    requires k < |value| && value[k] == '\''
    ensures value + "'" == value[..k] + "'" + (value[k + 1..] + "'")
  {
    assert value == value[..k] + "'" + value[k + 1..];
  }

  lemma EndsInApostrophe(s: string)
    ensures !Free(s + "'", '\'')
  {
    assert (s + "'")[|s|] == '\'';
  }

  /** A value with an apostrophe at the end of a rule is not read as it is. */
  lemma ReadLoses(value: string, k: nat)
    requires k < |value| && value[k] == '\'' && Free(value[..k], '\'')
    ensures var t := Read(value + "'", true); t.Some? ==> t.value.value != value
  {
    hide Read, Free;
    var x := value[k + 1..] + "'";
    SplitAtApostrophe(value, k);
    ReadTo(value[..k], x);
    EndsInApostrophe(value[k + 1..]);
    var t := Read(x, false);
    if t.Some? && value[..k] + t.value.value == value {
      assert |t.value.value| == |x|;
      LosslessMeansFree(x);
      assert false;
    }
  }

  function FirstApostrophe(s: string): (n: nat)
    ensures n <= |s| && Free(s[..n], '\'') && (n < |s| ==> s[n] == '\'')
  {
    if s == "" || s[0] == '\'' then 0 else 1 + FirstApostrophe(s[1..])
  }

  function Extend(prefix: string, t: Option<Token>): Option<Token> {
    match t
    case None => None
    case Some(token) => Some(token.(value := prefix + token.value))
  }

  lemma {:induction false} ReadTo(prefix: string, after: string)
    requires Free(prefix, '\'')
    ensures Read(prefix + "'" + after, true) == Extend(prefix, Read(after, false))
  {
    var s := prefix + "'" + after;
    if prefix == "" {
      assert s[1..] == after;
      var t := Read(after, false);
      assert t.Some? ==> "" + t.value.value == t.value.value;
    } else {
      assert s[0] == prefix[0] && s[1..] == prefix[1..] + "'" + after;
      ReadTo(prefix[1..], after);
      assert prefix == [prefix[0]] + prefix[1..];
      var t := Read(after, false);
      assert t.Some? ==> [prefix[0]] + (prefix[1..] + t.value.value) == prefix + t.value.value;
    }
  }

  lemma ParseHead(e: Entry, rest: string)
    requires Free(e.key, '=') && Free(e.value, '\'')
    ensures Parse(Quoted(e) + "," + rest) == Preceded(e, Parse(rest))
  {
    QuotedParts(e, "," + rest);
    ReadQuoted(e.value, "," + rest);
    assert Quoted(e) + "," + rest == Quoted(e) + ("," + rest);
    assert ("," + rest)[1..] == rest;
  }

  lemma ParseUnfolds(s: string)
    requires s != "" && Parse(s).Some?
    ensures KeyEnd(s) < |s| && Read(s[KeyEnd(s) + 1..], false).Some?
    ensures var t, key := Read(s[KeyEnd(s) + 1..], false).value, s[..KeyEnd(s)];
            Parse(s) == if t.more then Preceded(Entry(key, t.value), Parse(t.rest)) else Some([Entry(key, t.value)])
  {
    hide Read, KeyEnd;
  }

  lemma FirstParsed(s: string)
    requires s != "" && Parse(s).Some?
    ensures KeyEnd(s) < |s| && Read(s[KeyEnd(s) + 1..], false).Some?
    ensures Parse(s).value != [] && Parse(s).value[0].value == Read(s[KeyEnd(s) + 1..], false).value.value
  {
    hide Read, KeyEnd, Parse;
    ParseUnfolds(s);
  }

  lemma ParseLast(e: Entry)
    requires Free(e.key, '=')
    ensures Parse(Quoted(e)) == Some([e]) <==> Free(e.value, '\'')
  {
    QuotedParts(e, "");
    assert Quoted(e) + "" == Quoted(e);
    assert e.value + "'" + "" == e.value + "'";
    var k := FirstApostrophe(e.value);
    if k == |e.value| {
      assert e.value[..k] == e.value;
      ReadQuoted(e.value, "");
    } else {
      ReadLoses(e.value, k);
      if Parse(Quoted(e)).Some? {
        FirstParsed(Quoted(e));
      }
    }
  }

  predicate SafeEntries(rule: seq<Entry>) {
    forall i :: 0 <= i < |rule| ==> Free(rule[i].key, '=') && Free(rule[i].value, '\'')
  }

  /** The bus reads a rule back as it was meant, entry by entry, if and only if the value of the last
      entry has no apostrophe; the values before it have none. */
  lemma {:induction false} RuleRoundTrips(rule: seq<Entry>, last: Entry)
    requires SafeEntries(rule) && Free(last.key, '=')
    ensures Parse(RuleText(rule + [last])) == Some(rule + [last]) <==> Free(last.value, '\'')
  {
    if rule == [] {
      assert rule + [last] == [last];
      ParseLast(last);
    } else {
      assert (rule + [last])[1..] == rule[1..] + [last];
      RuleRoundTrips(rule[1..], last);
      ParseHead(rule[0], RuleText(rule[1..] + [last]));
      assert rule + [last] == [rule[0]] + (rule[1..] + [last]);
      var rest := Parse(RuleText(rule[1..] + [last]));
      if rest.Some? && [rule[0]] + rest.value == rule + [last] {
        assert ([rule[0]] + rest.value)[1..] == rest.value;
      }
    }
  }

  // ----- what a rule asks for -----

  /** One entry of a match rule, as section "Match Rules" of the D-Bus Specification has it. */
  predicate Satisfies(msg: Message, e: Entry) {
    if e.key == "type" then msg.kind.Signal? && e.value == "signal"
    else if e.key == "interface" then msg.interface == Some(e.value)
    else if e.key == "member" then msg.member == Some(e.value)
    else if e.key == "path" then msg.path == Some(e.value)
    else if e.key == "arg0" then msg.args != [] && msg.args[0] == Text(e.value)
    else false
  }

  predicate SatisfiesRule(msg: Message, rule: seq<Entry>) {
    forall e :: e in rule ==> Satisfies(msg, e)
  }

  /** Whether the bus sends the message to whoever registered the rule with this text. */
  predicate BusDelivers(text: string, msg: Message) {
    var rule := Parse(text);
    rule.Some? && SatisfiesRule(msg, rule.value)
  }

  // ----- the two kinds of subscription -----

  const DBUSIPC_INTERFACE := "com.hsae.dbusipc"
  const DBUSIPC_SIGNAL := "Emit"
  const DBUS_INTERFACE := "org.freedesktop.DBus"
  const DBUS_PATH := "/org/freedesktop/DBus"
  const OWNER_CHANGED := "NameOwnerChanged"

  datatype Subscription =
    | ToSignal(objPath: string, name: string, hasCallback: bool)
    | ToOwnerChanged(busName: string, hasCallback: bool)

  /** The entries before the last, which are there in every rule, and the last. */
  function RuleOf(sub: Subscription): seq<Entry> {
    match sub
    case ToSignal(objPath, name, _) =>
      [Entry("type", "signal"), Entry("interface", DBUSIPC_INTERFACE), Entry("member", DBUSIPC_SIGNAL), Entry("path", objPath)]
      + [Entry("arg0", name)]
    case ToOwnerChanged(busName, _) =>
      [Entry("type", "signal"), Entry("interface", DBUS_INTERFACE), Entry("member", OWNER_CHANGED)] + [Entry("path", DBUS_PATH)]
      + if busName == "" then [] else [Entry("arg0", busName)]
  }

  lemma {:induction false} OneMoreEntry(rule: seq<Entry>, last: Entry)
    requires rule != []
    ensures RuleText(rule + [last]) == RuleText(rule) + "," + Quoted(last)
  {
    hide Quoted;
    assert (rule + [last])[1..] == rule[1..] + [last];
    if |rule| == 1 {
      assert RuleText([last]) == Quoted(last);
    } else {
      OneMoreEntry(rule[1..], last);
      var head, tail := Quoted(rule[0]), RuleText(rule[1..]);
      assert head + "," + (tail + "," + Quoted(last)) == (head + "," + tail) + "," + Quoted(last);
    }
  }

  /** Appending to the text what introduces a key, its value and the closing apostrophe. */
  lemma Chunk(rule: seq<Entry>, lead: string, e: Entry)
    requires rule != [] && lead == "," + e.key + "='"
    ensures RuleText(rule) + lead + e.value + "'" == RuleText(rule + [e])
  {
    OneMoreEntry(rule, e);
    var text := RuleText(rule);
    assert text + lead == text + "," + (e.key + "='");
    assert text + "," + (e.key + "='" + e.value + "'") == text + "," + (e.key + "='") + e.value + "'";
  }

  function CommonText(interface: string, member: string, path: string): string {
    "type='signal'" + ",interface='" + interface + "'" + ",member='" + member + "'" + ",path='" + path + "'"
  }

  lemma CommonIs(interface: string, member: string, path: string)
    ensures RuleText([Entry("type", "signal"), Entry("interface", interface), Entry("member", member), Entry("path", path)])
            == CommonText(interface, member, path)
  {
    var entries := [Entry("type", "signal")];
    assert RuleText(entries) == Quoted(entries[0]) == "type='signal'";
    hide RuleText, Quoted;
    Chunk(entries, ",interface='", Entry("interface", interface));
    entries := entries + [Entry("interface", interface)];
    Chunk(entries, ",member='", Entry("member", member));
    entries := entries + [Entry("member", member)];
    Chunk(entries, ",path='", Entry("path", path));
    assert entries + [Entry("path", path)]
           == [Entry("type", "signal"), Entry("interface", interface), Entry("member", member), Entry("path", path)];
  }

  lemma TextOfRule(sub: Subscription)
    ensures RuleText(RuleOf(sub)) ==
            match sub
            case ToSignal(objPath, name, _) => CommonText(DBUSIPC_INTERFACE, DBUSIPC_SIGNAL, objPath) + ",arg0='" + name + "'"
            case ToOwnerChanged(busName, _) =>
              var common := CommonText(DBUS_INTERFACE, OWNER_CHANGED, DBUS_PATH);
              if busName == "" then common else common + ",arg0='" + busName + "'"
  {
    hide RuleText, Quoted, CommonText;
    match sub
    case ToSignal(objPath, name, _) =>
      CommonIs(DBUSIPC_INTERFACE, DBUSIPC_SIGNAL, objPath);
      Chunk([Entry("type", "signal"), Entry("interface", DBUSIPC_INTERFACE), Entry("member", DBUSIPC_SIGNAL), Entry("path", objPath)],
            ",arg0='", Entry("arg0", name));
    case ToOwnerChanged(busName, _) =>
      CommonIs(DBUS_INTERFACE, OWNER_CHANGED, DBUS_PATH);
      var common := [Entry("type", "signal"), Entry("interface", DBUS_INTERFACE), Entry("member", OWNER_CHANGED)];
      assert common + [Entry("path", DBUS_PATH)]
             == [Entry("type", "signal"), Entry("interface", DBUS_INTERFACE), Entry("member", OWNER_CHANGED),
                 Entry("path", DBUS_PATH)];
      Chunk(common + [Entry("path", DBUS_PATH)], ",arg0='", Entry("arg0", busName));
      assert busName == "" ==> RuleOf(sub) == common + [Entry("path", DBUS_PATH)];
  }

  /** The texts the constructors put together. */
  method MakeRule(sub: Subscription) returns (rule: string)
    ensures rule == RuleText(RuleOf(sub))
    ensures sub.ToSignal? ==>
              rule == "type='signal'" + ",interface='" + DBUSIPC_INTERFACE + "'" + ",member='" + DBUSIPC_SIGNAL + "'"
                      + ",path='" + sub.objPath + "'" + ",arg0='" + sub.name + "'"
    ensures sub.ToOwnerChanged? ==>
              rule == var common :=
                        "type='signal'" + ",interface='" + DBUS_INTERFACE + "'" + ",member='" + OWNER_CHANGED + "'"
                        + ",path='" + DBUS_PATH + "'";
                      if sub.busName == "" then common else common + ",arg0='" + sub.busName + "'"
  {
    TextOfRule(sub);
    hide RuleText, RuleOf;
    var interface := if sub.ToSignal? then DBUSIPC_INTERFACE else DBUS_INTERFACE;
    var member := if sub.ToSignal? then DBUSIPC_SIGNAL else OWNER_CHANGED;
    var path := if sub.ToSignal? then sub.objPath else DBUS_PATH;
    var arg0 := if sub.ToSignal? then sub.name else sub.busName;
    rule := "type='signal'" + ",interface='" + interface + "'" + ",member='" + member + "'" + ",path='" + path + "'";
    if sub.ToSignal? || arg0 != "" {
      rule := rule + ",arg0='" + arg0 + "'";
    }
  }

  /** The decision `dispatchIfMatch` takes. */
  predicate Accepts(sub: Subscription, msg: Message) {
    match sub
    case ToSignal(objPath, name, _) =>
      IsSignal(msg, DBUSIPC_INTERFACE, DBUSIPC_SIGNAL) && msg.path == Some(objPath) && HasTexts(msg, 2) && msg.args[0].text == name
    case ToOwnerChanged(busName, _) =>
      IsSignal(msg, DBUS_INTERFACE, OWNER_CHANGED) && msg.path == Some(DBUS_PATH) && HasTexts(msg, 3)
      && (busName == "" || msg.args[0].text == busName)
  }

  /** The number of string arguments a subscription expects. */
  function Expected(sub: Subscription): nat {
    if sub.ToSignal? then 2 else 3
  }

  /** The value that names what the subscriber wants to hear of. */
  function Name(sub: Subscription): string {
    if sub.ToSignal? then sub.name else sub.busName
  }

  lemma ValidPathIsFree(path: string)
    requires ObjectPaths.ValidObjectPath(path)
    ensures Free(path, '\'')
  {
  }

  lemma KeysAreFree()
    ensures Free("type", '=') && Free("interface", '=') && Free("member", '=') && Free("path", '=') && Free("arg0", '=')
  {
  }

  lemma ConstantsAreFree()
    ensures Free("signal", '\'') && Free(DBUSIPC_INTERFACE, '\'') && Free(DBUSIPC_SIGNAL, '\'')
    ensures Free(DBUS_INTERFACE, '\'') && Free(OWNER_CHANGED, '\'') && Free(DBUS_PATH, '\'') && Free("", '\'')
  {
  }

  /** The entries that both kinds of rule begin with. */
  lemma FixedEntriesAreSafe(interface: string, member: string, path: string)
    requires Free(interface, '\'') && Free(member, '\'') && Free(path, '\'')
    ensures SafeEntries([Entry("type", "signal"), Entry("interface", interface), Entry("member", member)])
    ensures SafeEntries([Entry("type", "signal"), Entry("interface", interface), Entry("member", member), Entry("path", path)])
  {
    hide Free;
    KeysAreFree();
    ConstantsAreFree();
  }

  /** For a valid object path, which never contains an apostrophe, the bus understands the rule of a
      subscription as it was meant if and only if the name in it contains none either. */
  lemma RuleIsUnderstood(sub: Subscription)
    requires sub.ToSignal? ==> ObjectPaths.ValidObjectPath(sub.objPath)
    ensures Parse(RuleText(RuleOf(sub))) == Some(RuleOf(sub)) <==> Free(Name(sub), '\'')
  {
    hide Parse, RuleText, SafeEntries, Free;
    KeysAreFree();
    ConstantsAreFree();
    match sub
    case ToSignal(objPath, name, _) =>
      ValidPathIsFree(objPath);
      FixedEntriesAreSafe(DBUSIPC_INTERFACE, DBUSIPC_SIGNAL, objPath);
      RuleRoundTrips([Entry("type", "signal"), Entry("interface", DBUSIPC_INTERFACE), Entry("member", DBUSIPC_SIGNAL),
                      Entry("path", objPath)], Entry("arg0", name));
    case ToOwnerChanged(busName, _) =>
      FixedEntriesAreSafe(DBUS_INTERFACE, OWNER_CHANGED, DBUS_PATH);
      var three := [Entry("type", "signal"), Entry("interface", DBUS_INTERFACE), Entry("member", OWNER_CHANGED)];
      var four := [Entry("type", "signal"), Entry("interface", DBUS_INTERFACE), Entry("member", OWNER_CHANGED),
                   Entry("path", DBUS_PATH)];
      assert four == three + [Entry("path", DBUS_PATH)];
      if busName == "" {
        assert RuleOf(sub) == three + [Entry("path", DBUS_PATH)];
        RuleRoundTrips(three, Entry("path", DBUS_PATH));
      } else {
        RuleRoundTrips(four, Entry("arg0", busName));
      }
  }

  /** The five things a rule can ask for, as they come out for each kind of entry. */
  lemma SatisfiesByKey(msg: Message, value: string)
    ensures Satisfies(msg, Entry("type", "signal")) <==> msg.kind.Signal?
    ensures Satisfies(msg, Entry("interface", value)) <==> msg.interface == Some(value)
    ensures Satisfies(msg, Entry("member", value)) <==> msg.member == Some(value)
    ensures Satisfies(msg, Entry("path", value)) <==> msg.path == Some(value)
    ensures Satisfies(msg, Entry("arg0", value)) <==> msg.args != [] && msg.args[0] == Text(value)
  {
  }

  lemma SatisfiesFour(msg: Message, interface: string, member: string, path: string)
    ensures SatisfiesRule(msg, [Entry("type", "signal"), Entry("interface", interface), Entry("member", member), Entry("path", path)])
            <==> msg.kind.Signal? && msg.interface == Some(interface) && msg.member == Some(member) && msg.path == Some(path)
  {
    hide Satisfies;
    var rule := [Entry("type", "signal"), Entry("interface", interface), Entry("member", member), Entry("path", path)];
    assert rule[0] in rule && rule[1] in rule && rule[2] in rule && rule[3] in rule;
    SatisfiesByKey(msg, interface);
    SatisfiesByKey(msg, member);
    SatisfiesByKey(msg, path);
  }

  lemma SatisfiesOneMore(msg: Message, rule: seq<Entry>, value: string)
    ensures SatisfiesRule(msg, rule + [Entry("arg0", value)])
            <==> SatisfiesRule(msg, rule) && msg.args != [] && msg.args[0] == Text(value)
  {
    hide Satisfies;
    var e := Entry("arg0", value);
    SatisfiesByKey(msg, value);
    assert (rule + [e])[|rule|] == e;
    assert forall x :: x in rule ==> x in rule + [e];
  }

  lemma SatisfiesAll(sub: Subscription, msg: Message)
    ensures Accepts(sub, msg) <==> SatisfiesRule(msg, RuleOf(sub)) && HasTexts(msg, Expected(sub))
  {
    hide SatisfiesRule;
    match sub
    case ToSignal(objPath, name, _) =>
      SatisfiesFour(msg, DBUSIPC_INTERFACE, DBUSIPC_SIGNAL, objPath);
      SatisfiesOneMore(msg, [Entry("type", "signal"), Entry("interface", DBUSIPC_INTERFACE), Entry("member", DBUSIPC_SIGNAL),
                             Entry("path", objPath)], name);
    case ToOwnerChanged(busName, _) =>
      SatisfiesFour(msg, DBUS_INTERFACE, OWNER_CHANGED, DBUS_PATH);
      var four := [Entry("type", "signal"), Entry("interface", DBUS_INTERFACE), Entry("member", OWNER_CHANGED),
                   Entry("path", DBUS_PATH)];
      SatisfiesOneMore(msg, four, busName);
      assert RuleOf(sub) == if busName == "" then four else four + [Entry("arg0", busName)];
  }

  /** The local decision agrees with the bus: whatever the message, it is accepted exactly when the
      bus would deliver it for the rule and it has the string arguments the subscriber expects. */
  lemma LocalMatchAgreesWithBus(sub: Subscription, msg: Message)
    requires sub.ToSignal? ==> ObjectPaths.ValidObjectPath(sub.objPath)
    requires Free(Name(sub), '\'')
    ensures Accepts(sub, msg) <==> BusDelivers(RuleText(RuleOf(sub)), msg) && HasTexts(msg, Expected(sub))
  {
    RuleIsUnderstood(sub);
    SatisfiesAll(sub, msg);
  }

  // ----- dispatching a signal -----

  /** `dispatchIfMatch`: whether the message matches, and what the callback is given, if it is called. */
  method DispatchIfMatch(sub: Subscription, msg: Message) returns (matches: bool, called: Option<seq<string>>)
    ensures matches == Accepts(sub, msg)
    ensures called.Some? <==> Accepts(sub, msg) && sub.hasCallback
    ensures called.Some? ==>
              |called.value| == Expected(sub) && forall i :: 0 <= i < Expected(sub) ==> msg.args[i] == Text(called.value[i])
  {
    matches, called := false, None;
    match sub
    case ToSignal(objPath, name, hasCallback) =>
      if IsSignal(msg, DBUSIPC_INTERFACE, DBUSIPC_SIGNAL) && msg.path == Some(objPath) {
        if HasTexts(msg, 2) && msg.args[0].text == name {
          matches := true;
          if hasCallback {
            called := Some([name, msg.args[1].text]);
          }
        }
      }
    case ToOwnerChanged(busName, hasCallback) =>
      if IsSignal(msg, DBUS_INTERFACE, OWNER_CHANGED) && msg.path == Some(DBUS_PATH) && HasTexts(msg, 3) {
        if busName == "" {
          matches := true;
        } else if busName == msg.args[0].text {
          matches := true;
        }
      }
      if matches && hasCallback {
        called := Some([msg.args[0].text, msg.args[1].text, msg.args[2].text]);
      }
  }

  /** The subscribers whose callback a signal reaches, in container order. */
  function Reached(subs: seq<Subscription>, msg: Message): seq<nat> {
    if subs == [] then []
    else
      var n := |subs| - 1;
      Reached(subs[..n], msg) + if Accepts(subs[n], msg) && subs[n].hasCallback then [n] else []
  }

  /** Exactly the matching subscribers that have a callback, each once. */
  lemma {:induction false} ReachedExactly(subs: seq<Subscription>, msg: Message)
    ensures forall i: nat :: i in Reached(subs, msg) <==> i < |subs| && Accepts(subs[i], msg) && subs[i].hasCallback
    ensures forall j, k :: 0 <= j < k < |Reached(subs, msg)| ==> Reached(subs, msg)[j] < Reached(subs, msg)[k]
  {
    if subs != [] {
      var n := |subs| - 1;
      ReachedExactly(subs[..n], msg);
      forall j | 0 <= j < |Reached(subs[..n], msg)| ensures Reached(subs[..n], msg)[j] < n {
        assert Reached(subs[..n], msg)[j] in Reached(subs[..n], msg);
      }
    }
  }

  const LOCAL_INTERFACE := "org.freedesktop.DBus.Local"
  const LOCAL_PATH := "/org/freedesktop/DBus/Local"

  predicate LocalDisconnect(msg: Message) {
    IsSignal(msg, LOCAL_INTERFACE, "Disconnected") && msg.path == Some(LOCAL_PATH)
  }

  /** The part of `messageFilter` that deals with signals on a connection with these subscriptions:
      reported as handled if and only if it is the local disconnection or some subscription matches;
      the callbacks that run are those of the matching subscribers that have one. */
  method FilterSignal(subs: seq<Subscription>, isPrivate: bool, msg: Message)
    returns (handled: bool, closed: bool, invoked: seq<nat>)
    requires msg.kind.Signal?
    ensures closed <==> LocalDisconnect(msg) && isPrivate
    ensures handled <==> LocalDisconnect(msg) || exists i :: 0 <= i < |subs| && Accepts(subs[i], msg)
    ensures invoked == if LocalDisconnect(msg) then [] else Reached(subs, msg)
  {
    handled, closed, invoked := false, false, [];
    if LocalDisconnect(msg) {
      closed := isPrivate;
      handled := true;
    } else {
      for i := 0 to |subs|
        invariant !closed && invoked == Reached(subs[..i], msg)
        invariant handled <==> exists k :: 0 <= k < i && Accepts(subs[k], msg)
      {
        var matches, called := DispatchIfMatch(subs[i], msg);
        if matches {
          handled := true;
        }
        if called.Some? {
          invoked := invoked + [i];
        }
        assert subs[..i + 1][..i] == subs[..i];
      }
      assert subs[..|subs|] == subs;
    }
  }
}

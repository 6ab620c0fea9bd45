/** Path-scoped access control (secure/authorize_test.go): a role maps schema paths to
    permission levels, the permission at a path is that of its deepest ancestor (or itself)
    holding an entry, and each tree operation is allowed, silently hidden or refused as
    Unauthorized. The decision table is the one the authorization test pins. */
module Secure {
  import opened Wrappers
  import opened Json
  import Restconf

  /** The permission levels the authorization test grants; `NoAccess` is the source's `None`. */
  datatype Permission = NoAccess | Read | Full

  /** `Role.Access`: path ("birding", "birding/owner") to permission. */
  type Role = map<string, Permission>

  /** The length of the deepest prefix of `segs` with an entry in the role, 0 when none has. */
  function MatchDepth(role: Role, segs: seq<string>): (k: nat)
    ensures k <= |segs|
    ensures k > 0 ==> Restconf.Join(segs[..k]) in role
    ensures forall j :: k < j <= |segs| ==> Restconf.Join(segs[..j]) !in role
    decreases |segs|
  {
    if |segs| == 0 then 0
    else if Restconf.Join(segs) in role then
      assert segs[..|segs|] == segs;
      |segs|
    else
      var parent := segs[..|segs| - 1];
      var k := MatchDepth(role, parent);
      assert forall j :: 0 <= j <= |parent| ==> parent[..j] == segs[..j];
      assert segs[..|segs|] == segs;
      k
  }

  /** The permission at a path: the deepest entry on the way to it wins, regardless of whether
      it grants more or less than shallower ones; with no entry the default is NoAccess. */
  function Resolve(role: Role, segs: seq<string>): (p: Permission)
    ensures (forall j :: 0 < j <= |segs| ==> Restconf.Join(segs[..j]) !in role) ==> p == NoAccess
    ensures forall j :: 0 < j <= |segs| && Restconf.Join(segs[..j]) in role
                        && (forall i :: j < i <= |segs| ==> Restconf.Join(segs[..i]) !in role)
                        ==> p == role[Restconf.Join(segs[..j])]
  {
    var k := MatchDepth(role, segs);
    if k == 0 then NoAccess else role[Restconf.Join(segs[..k])]
  }

  /** An entry at the path itself decides, whatever its ancestors grant. */
  lemma EntryAtPathDecides(role: Role, segs: seq<string>)
    requires |segs| > 0 && Restconf.Join(segs) in role
    ensures Resolve(role, segs) == role[Restconf.Join(segs)]
  {
    assert segs[..|segs|] == segs;
  }

  /** Without an entry of its own, a path inherits its parent's permission. */
  lemma {:induction false} InheritsFromParent(role: Role, parent: seq<string>, name: string)
    requires Restconf.Join(parent + [name]) !in role
    ensures Resolve(role, parent + [name]) == Resolve(role, parent)
  {
    var segs := parent + [name];
    assert segs[..|segs| - 1] == parent;
    assert MatchDepth(role, segs) == MatchDepth(role, parent);
    var k := MatchDepth(role, parent);
    assert segs[..k] == parent[..k];
  }

  predicate MayRead(p: Permission)
  {
    p == Read || p == Full
  }

  /** Writing, invoking an action and subscribing all need Full: the test shows that Read alone
      permits none of them. */
  predicate MayChange(p: Permission)
  {
    p == Full
  }

  /** The error an operation may fail with; only Unauthorized is ever produced. */
  datatype AuthError = Unauthorized | Other(reason: string)

  /** The value of a data path below the module (the module segment dropped). */
  function ValueAt(data: Value, below: seq<string>): Option<Value>
    decreases |below|
  {
    if |below| == 0 then Some(data)
    else match Member(data, below[0])
         case None => None
         case Some(child) => ValueAt(child, below[1..])
  }

  /** The outcome of `sel(s.Find(path)).Get()`: a value and an error. */
  datatype FieldRead = FieldRead(value: Option<Value>, err: Option<AuthError>)

  /** Reading a leaf: a hidden leaf reads as absent, never as an error. */
  function ReadField(role: Role, data: Value, segs: seq<string>): (r: FieldRead)
    requires |segs| > 0
    ensures r.err.None?
    ensures r.value.Some? ==> MayRead(Resolve(role, segs)) && r.value == ValueAt(data, segs[1..])
    ensures MayRead(Resolve(role, segs)) ==> r.value == ValueAt(data, segs[1..])
  {
    if MayRead(Resolve(role, segs)) then FieldRead(ValueAt(data, segs[1..]), None)
    else FieldRead(None, None)
  }

  /** `s.Find(path)`: the selection of a container, absent (not an error) when hidden. */
  function Find(role: Role, data: Value, segs: seq<string>): (s: Option<Value>)
    requires |segs| > 0
    ensures s.Some? <==> MayRead(Resolve(role, segs)) && ValueAt(data, segs[1..]).Some?
    ensures s.Some? ==> s == ValueAt(data, segs[1..])
  {
    if MayRead(Resolve(role, segs)) then ValueAt(data, segs[1..]) else None
  }

  /** The check every change goes through, `SetValue` on a leaf and `Action` on an action
      alike: refused as Unauthorized without Full. */
  function CheckChange(role: Role, segs: seq<string>): (err: Option<AuthError>)
    ensures err.None? <==> MayChange(Resolve(role, segs))
    ensures err.Some? ==> err.value == Unauthorized
  {
    if MayChange(Resolve(role, segs)) then None else Some(Unauthorized)
  }

  /** A notification delivered to a subscriber: an event or an error node. */
  datatype Notice = Event(node: Value) | ErrorNode(error: AuthError)

  /** `Notifications(...)` on a notification the test's node always sends once: the call itself
      succeeds, and a refused subscription delivers a single Unauthorized error node instead. */
  function Subscribe(role: Role, segs: seq<string>): (r: Result<seq<Notice>, AuthError>)
    ensures r.Success? && |r.value| == 1
    ensures r.value[0].ErrorNode? <==> !MayChange(Resolve(role, segs))
    ensures r.value[0].ErrorNode? ==> r.value[0].error == Unauthorized
  {
    if MayChange(Resolve(role, segs)) then Success([Event(Object(map[]))])
    else Success([ErrorNode(Unauthorized)])
  }

  /** The test's classification of outcomes. */
  datatype Outcome = Allowed | Hidden | Denied

  /** `val2auth`: no value is hidden (before the error is looked at). */
  function ValToAuth(r: FieldRead): (o: Outcome)
    ensures o == Hidden <==> r.value.None?
    ensures o == Denied <==> r.value.Some? && r.err == Some(Unauthorized)
  {
    if r.value.None? then Hidden
    else if r.err == Some(Unauthorized) then Denied
    else Allowed
  }

  /** `sel2auth`. */
  function SelToAuth(s: Option<Value>): (o: Outcome)
    ensures o != Denied
    ensures o == Allowed <==> s.Some?
  {
    if s.None? then Hidden else Allowed
  }

  /** `err2auth`; any error other than Unauthorized makes the test panic (no outcome). */
  function ErrToAuth(err: Option<AuthError>): (o: Option<Outcome>)
    ensures o.Some? <==> err.None? || err.value == Unauthorized
    ensures o.Some? ==> o.value != Hidden && (o.value == Allowed <==> err.None?)
  {
    if err.None? then Some(Allowed)
    else if err.value == Unauthorized then Some(Denied)
    else None
  }

  /** The error the test's notification callback keeps: that of the last error node. */
  function LastError(notices: seq<Notice>): (e: Option<AuthError>)
    ensures e.None? <==> forall i :: 0 <= i < |notices| ==> !notices[i].ErrorNode?
    ensures e.Some? ==> exists i :: 0 <= i < |notices| && notices[i] == ErrorNode(e.value)
                                    && forall j :: i < j < |notices| ==> !notices[j].ErrorNode?
  {
    if |notices| == 0 then None
    else if notices[|notices| - 1].ErrorNode? then Some(notices[|notices| - 1].error)
    else
      var r := LastError(notices[..|notices| - 1]);
      assert forall i :: 0 <= i < |notices| - 1 ==> notices[..|notices| - 1][i] == notices[i];
      r
  }

  /** One row of the test table. */
  datatype Row = Row(read: Outcome, readPath: Outcome, write: Outcome, writePath: Outcome,
                     action: Outcome, notify: Outcome)

  /** The test module `birding` and its data. */
  function BirdingData(): Value
  {
    Object(map["count" := Number(10), "owner" := Object(map["name" := String("ethel")])])
  }

  /** The outcomes of one pass of the test loop under a role; none if the test would panic.
      Every role gives a row: a read is allowed iff the path is readable and hidden otherwise,
      the owner's field is hidden with its container and otherwise follows the write rule, and
      writes, actions and subscriptions are allowed iff the permission is Full and
      Unauthorized otherwise. */
  function Observe(role: Role): (o: Option<Row>)
    ensures o.Some?
    ensures o.value.read == (if MayRead(Resolve(role, ["birding", "count"])) then Allowed else Hidden)
    ensures o.value.readPath == (if MayRead(Resolve(role, ["birding", "owner"])) then Allowed else Hidden)
    ensures o.value.write == (if MayChange(Resolve(role, ["birding", "count"])) then Allowed else Denied)
    ensures o.value.writePath == (if !MayRead(Resolve(role, ["birding", "owner"])) then Hidden
                                  else if MayChange(Resolve(role, ["birding", "owner", "name"])) then Allowed
                                  else Denied)
    ensures o.value.action == (if MayChange(Resolve(role, ["birding", "fieldtrip"])) then Allowed else Denied)
    ensures o.value.notify == (if MayChange(Resolve(role, ["birding", "identified"])) then Allowed else Denied)
  {
    var data := BirdingData();
    DenialsAreClassified(role, data, ["birding", "count"]);
    DenialsAreClassified(role, data, ["birding", "owner", "name"]);
    DenialsAreClassified(role, data, ["birding", "fieldtrip"]);
    DenialsAreClassified(role, data, ["birding", "identified"]);
    assert ValueAt(data, ["count"]) == Some(Number(10));
    assert ValueAt(data, ["owner"]).Some?;
    var read := ValToAuth(ReadField(role, data, ["birding", "count"]));
    var pathSel := Find(role, data, ["birding", "owner"]);
    var readPath := SelToAuth(pathSel);
    var write := ErrToAuth(CheckChange(role, ["birding", "count"]));
    var writePath := if pathSel.None? then Some(Hidden)
                     else ErrToAuth(CheckChange(role, ["birding", "owner", "name"]));
    var action := ErrToAuth(CheckChange(role, ["birding", "fieldtrip"]));
    var subscribed := Subscribe(role, ["birding", "identified"]);
    var notify := if subscribed.Failure? then None else ErrToAuth(LastError(subscribed.value));
    if write.None? || writePath.None? || action.None? || notify.None? then None
    else Some(Row(read, readPath, write.value, writePath.value, action.value, notify.value))
  }

  /** A denied read is reported as hidden and never as an error; a denied write, action or
      subscription as Unauthorized and never as another error: the test never panics. */
  lemma DenialsAreClassified(role: Role, data: Value, segs: seq<string>)
    requires |segs| > 0
    ensures ValToAuth(ReadField(role, data, segs)) != Denied
    ensures !MayRead(Resolve(role, segs)) ==> ValToAuth(ReadField(role, data, segs)) == Hidden
    ensures ErrToAuth(CheckChange(role, segs)) == Some(if MayChange(Resolve(role, segs)) then Allowed else Denied)
    ensures Subscribe(role, segs).Success?
    ensures ErrToAuth(LastError(Subscribe(role, segs).value))
            == Some(if MayChange(Resolve(role, segs)) then Allowed else Denied)
  {
    var notices := Subscribe(role, segs).value;
    assert notices[..0] == [];
  }

  lemma BirdingKeys()
    ensures Restconf.Join(["birding"]) == "birding"
    ensures Restconf.Join(["birding", "count"]) == "birding/count"
    ensures Restconf.Join(["birding", "owner"]) == "birding/owner"
    ensures Restconf.Join(["birding", "owner", "name"]) == "birding/owner/name"
    ensures Restconf.Join(["birding", "fieldtrip"]) == "birding/fieldtrip"
    ensures Restconf.Join(["birding", "identified"]) == "birding/identified"
  {
    assert ["birding", "owner", "name"][..2] == ["birding", "owner"];
    assert ["birding", "owner"][..1] == ["birding"];
    assert ["birding", "count"][..1] == ["birding"];
    assert ["birding", "fieldtrip"][..1] == ["birding"];
    assert ["birding", "identified"][..1] == ["birding"];
  }

  /** Row "default": with no entries reads are hidden and everything else is Unauthorized. */
  lemma DefaultRow()
    ensures Observe(map[]) == Some(Row(Hidden, Hidden, Denied, Hidden, Denied, Denied))
  {
  }

  /** Row "none": Read on the module allows reads only. */
  lemma ReadRow()
    ensures Observe(map["birding" := Read]) == Some(Row(Allowed, Allowed, Denied, Denied, Denied, Denied))
  {
    BirdingKeys();
  }

  /** Row "full": Full on the module allows everything. */
  lemma FullRow()
    ensures Observe(map["birding" := Full]) == Some(Row(Allowed, Allowed, Allowed, Allowed, Allowed, Allowed))
  {
    BirdingKeys();
  }

  /** Row "mixed": NoAccess on `birding/owner` hides the owner although the module grants Full. */
  lemma MixedRow()
    ensures Observe(map["birding" := Full, "birding/owner" := NoAccess])
            == Some(Row(Allowed, Hidden, Allowed, Hidden, Allowed, Allowed))
  {
    BirdingKeys();
  }

  /** Reading `count` under Read on the module yields its value. */
  lemma ReadYieldsValue()
    ensures ReadField(map["birding" := Read], BirdingData(), ["birding", "count"]) == FieldRead(Some(Number(10)), None)
  {
    BirdingKeys();
  }
}

/**
 * What a drawn prize leads to (features.js: `handleSpinResult` and the credential lookup
 * of `authenticateWonSession`). The session-credential object of the host page is a
 * parameter; the authentication call itself is not part of this model.
 */
module Rewards {
  import opened Wrappers
  import opened Prizes

  datatype Credential = Credential(username: string, password: string)

  /** The host page's `SESSION_CREDENTIALS`: undefined, or defined with its `'3h'` entry. */
  datatype SessionCredentials = Undefined | Defined(threeHour: Option<Credential>)

  /** The result category shown for a prize and what follows it. */
  datatype Action =
    | ThanksShown                              // 'thanks': nothing follows
    | WinConnect(sessionType: Option<string>)  // 'win': `authenticateWonSession(sessionType)`
    | BonusGranted                             // 'bonus': `addBonusSpinChance()`

  /** What `authenticateWonSession` does. */
  datatype AuthOutcome =
    | NotReady                        // the credential object is missing: an alert, no login
    | Connecting(credential: Credential) // `performAuthentication` with these credentials
    | ConnectingUndefined             // an inherited property was found: the overlay, then
                                      // `performAuthentication(undefined, undefined)`
    | NoCredentials                   // no entry for the key: an alert, no login

  /** What `spinCredentials[key]` finds: an own property, an inherited one, or nothing. */
  datatype Entry = Absent | Own(credential: Option<Credential>) | Inherited

  /** A JavaScript value turned into text, as `+` and property access do: undefined is "undefined". */
  function AsText(v: Option<string>): string
  {
    match v
    case Some(s) => s
    case None => "undefined"
  }

  /** The session type a time or data prize authenticates with. */
  function SessionTypeOf(p: Prize): Option<string>
    requires p.kind == Time || p.kind == Data
  {
    if p.kind == Time then p.value else Some("data_" + AsText(p.value))
  }

  /** `handleSpinResult`'s branch on the prize type. */
  function ResolvePrize(p: Prize): (a: Action)
    ensures a.ThanksShown? <==> p.kind == Thanks
    ensures a.BonusGranted? <==> p.kind == Bonus
    ensures a.WinConnect? <==> p.kind == Time || p.kind == Data
    ensures p.kind == Time ==> a == WinConnect(p.value)
    ensures p.kind == Data ==> a == WinConnect(Some("data_" + AsText(p.value)))
  {
    match p.kind
    case Thanks => ThanksShown
    case Time => WinConnect(SessionTypeOf(p))
    case Data => WinConnect(SessionTypeOf(p))
    case Bonus => BonusGranted
  }

  /** The fixed table from session type to credentials; the `'3h'` entry comes from the host. */
  function SpinCredentials(threeHour: Option<Credential>): map<string, Option<Credential>>
  {
    map[
      "3h" := threeHour,
      "1h" := Some(Credential("smartNet", "smartNet@5120")),
      "data_100mb" := Some(Credential("smartNet data", "smartNet@5120")),
      "data_500mb" := Some(Credential("smartNet data", "smartNet@5120")),
      "data_1gb" := Some(Credential("smartNet data", "smartNet@5120"))
    ]
  }

  /**
   * The properties every plain object inherits from `Object.prototype`; each holds a
   * function or an object, so looking one of them up yields a truthy value.
   */
  const ObjectPrototypeNames: set<string> := {
    "constructor", "hasOwnProperty", "isPrototypeOf", "propertyIsEnumerable",
    "toString", "toLocaleString", "valueOf", "__proto__",
    "__defineGetter__", "__defineSetter__", "__lookupGetter__", "__lookupSetter__"
  }

  /**
   * `spinCredentials[sessionType]` on an object literal: an own key first, then the
   * inherited prototype properties; undefined otherwise.
   */
  function Lookup(table: map<string, Option<Credential>>, sessionType: Option<string>): Entry
  {
    var key := AsText(sessionType);
    if key in table then Own(table[key])
    else if key in ObjectPrototypeNames then Inherited
    else Absent
  }

  /** None of the table's own keys names an inherited property. */
  lemma TableKeysAreOwn(threeHour: Option<Credential>)
    ensures SpinCredentials(threeHour).Keys !! ObjectPrototypeNames
  {
    var keys := SpinCredentials(threeHour).Keys;
    assert keys == {"3h", "1h", "data_100mb", "data_500mb", "data_1gb"};
  }

  /**
   * `authenticateWonSession`: logs in with the entry the table holds for the key; a key
   * naming an inherited property is truthy too and starts a login without a username or
   * password; a missing credential object or an unknown key produces an alert instead.
   */
  function AuthenticateWonSession(sessionType: Option<string>, session: SessionCredentials): (r: AuthOutcome)
    ensures r.NotReady? <==> session.Undefined?
    ensures r.Connecting? ==>
      session.Defined? && Lookup(SpinCredentials(session.threeHour), sessionType) == Own(Some(r.credential))
    ensures session.Defined? && Lookup(SpinCredentials(session.threeHour), sessionType).Own? ==>
      (Lookup(SpinCredentials(session.threeHour), sessionType).credential.Some? <==> r.Connecting?)
    ensures r.ConnectingUndefined? <==> session.Defined? && AsText(sessionType) in ObjectPrototypeNames
  {
    match session
    case Undefined => NotReady
    case Defined(threeHour) =>
      TableKeysAreOwn(threeHour);
      match Lookup(SpinCredentials(threeHour), sessionType)
      case Own(Some(c)) => Connecting(c)
      case Inherited => ConnectingUndefined
      case _ => NoCredentials
  }

  /** A key that is neither in the table nor an inherited property never leads to a login. */
  lemma UnknownKeyNeverConnects(sessionType: Option<string>, session: SessionCredentials)
    requires AsText(sessionType) !in ObjectPrototypeNames
    requires session.Defined? ==> AsText(sessionType) !in SpinCredentials(session.threeHour)
    ensures !AuthenticateWonSession(sessionType, session).Connecting?
    ensures !AuthenticateWonSession(sessionType, session).ConnectingUndefined?
  {
  }

  /** A key naming an inherited property, such as "toString", does start a login. */
  lemma InheritedKeyStartsLogin(threeHour: Option<Credential>)
    ensures AuthenticateWonSession(Some("toString"), Defined(threeHour)) == ConnectingUndefined
  {
    TableKeysAreOwn(threeHour);
  }

  /**
   * Every time or data prize of the wheel derives a key the table holds, so it logs in
   * whenever the host provides the credential object, except the 3-hour prize, which
   * also needs the host's `'3h'` entry.
   */
  lemma WheelGrantsConnect(p: Prize, threeHour: Option<Credential>)
    requires p in WheelPrizes && (p.kind == Time || p.kind == Data)
    ensures AuthenticateWonSession(SessionTypeOf(p), Defined(threeHour)).Connecting?
      <==> p.value != Some("3h") || threeHour.Some?
  {
    var table := SpinCredentials(threeHour);
    if p == WheelPrizes[1] {
      assert SessionTypeOf(p) == Some("3h");
    } else if p == WheelPrizes[2] {
      assert "data_" + "100mb" == "data_100mb";
      assert SessionTypeOf(p) == Some("data_100mb");
    } else if p == WheelPrizes[3] {
      assert "data_" + "1gb" == "data_1gb";
      assert SessionTypeOf(p) == Some("data_1gb");
    } else if p == WheelPrizes[4] {
      assert "data_" + "500mb" == "data_500mb";
      assert SessionTypeOf(p) == Some("data_500mb");
    } else {
      assert p == WheelPrizes[5];
      assert SessionTypeOf(p) == Some("1h");
    }
  }
}

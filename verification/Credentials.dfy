/** Repository credentials across two stores without a shared transaction.

    A versioned key-value store holds the secrets; it appends a version only when the caller names the
    latest one.  A database row pins the version in use.  A write may be applied although its reply is
    lost, and the database transaction may fail after the write.
 */
module Credentials {
  import opened Options
  import opened Addresses

  datatype Kind = Writer | Reader

  datatype Secret = Secret(username: string, token: string, url: Option<string>)

  /** Version n of a secret is entry n - 1. */
  type Versions = seq<Secret>

  datatype Validation = Unvalidated | Valid | Invalid | Unknown

  datatype Row = Row(url: string, writerName: string, readerName: Option<string>, version: nat,
                     writerPin: Option<nat>, readerPin: Option<nat>, validation: Validation)

  datatype World = World(row: Option<Row>, writer: Versions, reader: Versions)

  datatype Problem = NotConfigured | StaleVersion | BadUrl | Taken | Locked | VersionRegression
                   | ConfirmationRequired | WriterMissing | WriterMismatch | SameToken
                   | VersionConflict | StorageFailed

  datatype Answer<+T> = Done(value: T) | Refused(problem: Problem)

  /** The configured Forgejo origin. */
  datatype Forge = Forge(host: string, port: string)

  /** The canonical form of an address on the configured origin. */
  function CanonicalAt(url: string, forge: Forge): Option<string> {
    match Parse(url)
    case None => None
    case Some(id) => if id.host == forge.host && id.port == forge.port then Some(Text(id)) else None
  }

  lemma CanonicalAtTwice(url: string, forge: Forge)
    requires CanonicalAt(url, forge).Some?
    ensures CanonicalAt(CanonicalAt(url, forge).value, forge) == CanonicalAt(url, forge)
  {
    ParseProper(url);
    ParseText(Parse(url).value);
  }

  function Pin(r: Row, kind: Kind): Option<nat> {
    if kind == Writer then r.writerPin else r.readerPin
  }

  function Stored(w: World, kind: Kind): Versions {
    if kind == Writer then w.writer else w.reader
  }

  // ---- the compare-and-set contract of the store ----

  /** How a write went: answered; applied with the reply lost; or not applied and not answered. */
  datatype Reply = Answered | ReplyLost | NotApplied

  /** A conditional append: nothing happens unless the caller names the latest version. */
  function Appended(v: Versions, cas: nat, s: Secret, reply: Reply): Versions {
    if cas == |v| && reply != NotApplied then v + [s] else v
  }

  // ---- reading the writer ----

  /** The secret a writer read returns, with its version: the pinned one, or the latest one when a row
      from before pinning may be adopted. */
  function WriterSecret(w: World, forge: Forge, legacy: bool): Answer<(Secret, nat)> {
    if w.row.None? then Refused(NotConfigured)
    else
      var r := w.row.value;
      if CanonicalAt(r.url, forge).None? then Refused(BadUrl)
      else if r.writerName == "" || (r.writerPin.None? && !legacy) then Refused(WriterMissing)
      else
        var v := if r.writerPin.Some? then r.writerPin.value else |w.writer|;
        if v == 0 || v > |w.writer| then Refused(StorageFailed)
        else
          var s := w.writer[v - 1];
          if s.username != r.writerName then Refused(WriterMismatch)
          else if s.url.Some? && CanonicalAt(s.url.value, forge) != CanonicalAt(r.url, forge)
          then Refused(WriterMismatch)
          else Done((s, v))
  }

  // ---- the operations ----

  /** A replacement request.  The database may fail to commit after everything else went well. */
  datatype Replacement = Replacement(kind: Kind, expected: nat, username: string, token: string,
                                     secretVersion: Option<nat>)

  /** The version the write will name, once every check before the write has passed. */
  function CasOf(w: World, forge: Forge, taken: bool, q: Replacement): (a: Answer<nat>)
    ensures a.Done? ==> w.row.Some? && q.expected == w.row.value.version
  {
    if w.row.None? then Refused(NotConfigured)
    else
      var r := w.row.value;
      var pinned := Pin(r, q.kind);
      var cas := if q.secretVersion.Some? then q.secretVersion else pinned;
      if q.expected != r.version then Refused(StaleVersion)
      else if CanonicalAt(r.url, forge).None? then Refused(BadUrl)
      else if taken then Refused(Taken)
      else if pinned.Some? && cas.value < pinned.value then Refused(VersionRegression)
      else if q.kind == Reader && cas.None? && r.readerName.Some? then Refused(ConfirmationRequired)
      else if q.kind == Reader && r.writerName != "" && WriterSecret(w, forge, true).Refused? then
        Refused(WriterSecret(w, forge, true).problem)
      else if q.kind == Reader && r.writerName != "" && WriterSecret(w, forge, true).value.0.token == q.token then
        Refused(SameToken)
      else if cas.Some? then Done(cas.value)
      else if q.kind == Writer && |w.writer| != 0 then Refused(ConfirmationRequired)
      else Done(0)
  }

  function Pinned(r: Row, q: Replacement, version: nat): Row {
    if q.kind == Writer then
      r.(writerName := q.username, writerPin := Some(version), version := r.version + 1, validation := Unvalidated)
    else
      r.(readerName := Some(q.username), readerPin := Some(version), version := r.version + 1, validation := Unvalidated)
  }

  /** The world after a replacement, whatever was lost on the way. */
  function Replaced(w: World, forge: Forge, taken: bool, q: Replacement, reply: Reply, commits: bool): World {
    match CasOf(w, forge, taken, q)
    case Refused(_) => w
    case Done(cas) =>
      var s := Secret(q.username, q.token, CanonicalAt(w.row.value.url, forge));
      var stored := Appended(Stored(w, q.kind), cas, s, reply);
      var ok := cas == |Stored(w, q.kind)| && reply == Answered && commits;
      World(if ok then Some(Pinned(w.row.value, q, cas + 1)) else w.row,
            if q.kind == Writer then stored else w.writer,
            if q.kind == Reader then stored else w.reader)
  }

  /** Configure the repository address.  Another spelling of the same repository changes nothing; a new
      one clears every credential, unless publication intent has locked it. */
  function Saved(w: World, forge: Forge, expected: nat, url: string, taken: bool, locked: bool, commits: bool): World {
    var canonical := CanonicalAt(url, forge);
    var version := if w.row.None? then 0 else w.row.value.version;
    if expected != version || canonical.None? || taken || !commits then w
    else if w.row.None? then w.(row := Some(Row(canonical.value, "", None, 1, None, None, Unvalidated)))
    else if Canonical(w.row.value.url) == canonical || locked then w
    else w.(row := Some(Row(canonical.value, "", None, w.row.value.version + 1, None, None, Unvalidated)))
  }

  /** Validate access with the writer; a valid one from before pinning is adopted. */
  function Validated(w: World, forge: Forge, expected: nat, taken: bool, verdict: Validation, commits: bool): World {
    var secret := WriterSecret(w, forge, true);
    if w.row.None? || expected != w.row.value.version || taken || secret.Refused? || !commits then w
    else
      var r := w.row.value;
      var adopted := if verdict == Valid && r.writerPin.None?
                     then r.(writerPin := Some(secret.value.1), version := r.version + 1) else r;
      w.(row := Some(adopted.(validation := verdict)))
  }

  datatype Event = Save(expected: nat, url: string, taken: bool, locked: bool, commits: bool)
                 | Replace(request: Replacement, taken: bool, reply: Reply, commits: bool)
                 | Validate(expected: nat, taken: bool, verdict: Validation, commits: bool)
                 | Elsewhere(kind: Kind, secret: Secret)

  /** `Elsewhere` is an operator or another tool appending a version to the store. */
  function Step(w: World, forge: Forge, e: Event): World {
    match e
    case Save(expected, url, taken, locked, commits) => Saved(w, forge, expected, url, taken, locked, commits)
    case Replace(q, taken, reply, commits) => Replaced(w, forge, taken, q, reply, commits)
    case Validate(expected, taken, verdict, commits) => Validated(w, forge, expected, taken, verdict, commits)
    case Elsewhere(kind, secret) =>
      if kind == Writer then w.(writer := w.writer + [secret]) else w.(reader := w.reader + [secret])
  }

  function Run(w: World, forge: Forge, es: seq<Event>): World {
    if es == [] then w else Step(Run(w, forge, es[..|es| - 1]), forge, es[|es| - 1])
  }

  // ---- the invariant ----

  /** A pinned version exists, and belongs to the configured user and repository. */
  predicate PinOk(pin: Option<nat>, versions: Versions, name: Option<string>, url: string, forge: Forge) {
    pin.Some? ==>
      && 1 <= pin.value <= |versions|
      && Some(versions[pin.value - 1].username) == name
      && (versions[pin.value - 1].url.Some? ==>
            CanonicalAt(versions[pin.value - 1].url.value, forge) == CanonicalAt(url, forge))
  }

  predicate Inv(w: World, forge: Forge) {
    w.row.Some? ==>
      var r := w.row.value;
      && CanonicalAt(r.url, forge).Some?
      && PinOk(r.writerPin, w.writer, Some(r.writerName), r.url, forge)
      && PinOk(r.readerPin, w.reader, r.readerName, r.url, forge)
      && (r.writerPin.Some? ==> r.writerName != "")
  }

  /** Usernames are never blank. */
  predicate WellFormed(e: Event) {
    e.Replace? ==> e.request.username != ""
  }

  lemma PinStays(pin: Option<nat>, versions: Versions, more: Versions, name: Option<string>, url: string, forge: Forge)
    requires PinOk(pin, versions, name, url, forge) && versions <= more
    ensures PinOk(pin, more, name, url, forge)
  {
  }

  lemma ReplaceInv(w: World, forge: Forge, taken: bool, q: Replacement, reply: Reply, commits: bool)
    requires Inv(w, forge) && q.username != ""
    ensures Inv(Replaced(w, forge, taken, q, reply, commits), forge)
  {
    hide PinOk, CanonicalAt, CasOf;
    if w.row.Some? && CasOf(w, forge, taken, q).Done? {
      var r, cas := w.row.value, CasOf(w, forge, taken, q).value;
      var s := Secret(q.username, q.token, CanonicalAt(r.url, forge));
      CanonicalAtTwice(r.url, forge);
      PinStays(r.writerPin, w.writer, w.writer + [s], Some(r.writerName), r.url, forge);
      PinStays(r.readerPin, w.reader, w.reader + [s], r.readerName, r.url, forge);
      NewPin(Stored(w, q.kind), s, r.url, forge);
    }
  }

  lemma NewPin(versions: Versions, s: Secret, url: string, forge: Forge)
    requires s.url.Some? ==> CanonicalAt(s.url.value, forge) == CanonicalAt(url, forge)
    ensures PinOk(Some(|versions| + 1), versions + [s], Some(s.username), url, forge)
  {
  }

  lemma ValidateInv(w: World, forge: Forge, expected: nat, taken: bool, verdict: Validation, commits: bool)
    requires Inv(w, forge)
    ensures Inv(Validated(w, forge, expected, taken, verdict, commits), forge)
  {
    hide CanonicalAt;
  }

  lemma SaveInv(w: World, forge: Forge, expected: nat, url: string, taken: bool, locked: bool, commits: bool)
    requires Inv(w, forge)
    ensures Inv(Saved(w, forge, expected, url, taken, locked, commits), forge)
  {
    hide Canonical, CanonicalAt;
    if CanonicalAt(url, forge).Some? {
      CanonicalAtTwice(url, forge);
    }
  }

  lemma StepInv(w: World, forge: Forge, e: Event)
    requires Inv(w, forge) && WellFormed(e)
    ensures Inv(Step(w, forge, e), forge)
  {
    hide PinOk, CanonicalAt, Replaced, Saved, Validated;
    match e {
      case Save(expected, url, taken, locked, commits) => SaveInv(w, forge, expected, url, taken, locked, commits);
      case Replace(q, taken, reply, commits) => ReplaceInv(w, forge, taken, q, reply, commits);
      case Validate(expected, taken, verdict, commits) => ValidateInv(w, forge, expected, taken, verdict, commits);
      case Elsewhere(kind, secret) =>
        if w.row.Some? {
          var r := w.row.value;
          PinStays(r.writerPin, w.writer, w.writer + [secret], Some(r.writerName), r.url, forge);
          PinStays(r.readerPin, w.reader, w.reader + [secret], r.readerName, r.url, forge);
        }
    }
  }

  /** In every reachable state, with write replies lost and commits failing anywhere: a pinned version
      exists, is at most the latest, and holds the configured name and, when bound, the repository. */
  lemma {:induction false} RunInv(w: World, forge: Forge, es: seq<Event>)
    requires Inv(w, forge) && forall i :: 0 <= i < |es| ==> WellFormed(es[i])
    ensures Inv(Run(w, forge, es), forge)
  {
    if es != [] {
      hide Inv, Step;
      RunInv(w, forge, es[..|es| - 1]);
      StepInv(Run(w, forge, es[..|es| - 1]), forge, es[|es| - 1]);
    }
  }

  /** And the configured address is one on the configured origin, in its canonical spelling wherever a
      step stored it. */
  lemma OriginKept(w: World, forge: Forge, e: Event)
    requires Inv(w, forge) && WellFormed(e) && Step(w, forge, e).row.Some?
    ensures var url := Step(w, forge, e).row.value.url;
            && Parse(url).Some? && Parse(url).value.host == forge.host && Parse(url).value.port == forge.port
            && (w.row.None? || url != w.row.value.url ==> e.Save? && Parse(e.url).Some? && url == Text(Parse(e.url).value))
  {
    hide Parse, Text, Replaced, WriterSecret, PinOk, Canonical;
    StepInv(w, forge, e);
    if e.Replace? {
      ReplacedAddress(w, forge, e);
    }
  }

  lemma ReplacedAddress(w: World, forge: Forge, e: Event)
    requires e.Replace?
    ensures var after := Step(w, forge, e);
            after.row.Some? == w.row.Some? && (w.row.Some? ==> after.row.value.url == w.row.value.url)
  {
    hide CanonicalAt, CasOf;
  }

  /** So reading the pinned writer never fails, other than by the store being unavailable. */
  lemma WriterAlwaysReadable(w: World, forge: Forge)
    requires Inv(w, forge) && w.row.Some? && w.row.value.writerPin.Some?
    ensures WriterSecret(w, forge, false).Done?
    ensures WriterSecret(w, forge, false).value.1 == w.row.value.writerPin.value
    ensures WriterSecret(w, forge, false).value.0.username == w.row.value.writerName
  {
    hide CanonicalAt;
  }

  // ---- what happens to a pin ----

  predicate AddressChanged(before: World, after: World) {
    before.row.Some? && after.row.Some? && Canonical(before.row.value.url) != Canonical(after.row.value.url)
  }

  /** A pin never disappears and never goes back until the address changes: a step leaves it, or moves
      it strictly forward to a version written later. */
  lemma PinOnlyAdvances(w: World, forge: Forge, e: Event, kind: Kind)
    requires Inv(w, forge) && w.row.Some? && Pin(w.row.value, kind).Some?
    ensures var after := Step(w, forge, e);
            after.row.Some?
            && (AddressChanged(w, after)
                || (Pin(after.row.value, kind).Some?
                    && Pin(after.row.value, kind).value >= Pin(w.row.value, kind).value
                    && (Pin(after.row.value, kind) != Pin(w.row.value, kind) ==>
                          Pin(after.row.value, kind).value > |Stored(w, kind)|)))
  {
    hide CanonicalAt, Canonical, WriterSecret;
    if e.Save? {
      AddressMoves(w, forge, e);
    }
  }

  lemma AddressMoves(w: World, forge: Forge, e: Event)
    requires Inv(w, forge) && w.row.Some? && e.Save?
    ensures Step(w, forge, e) == w || AddressChanged(w, Step(w, forge, e))
  {
    hide Parse, Text;
    if CanonicalAt(e.url, forge).Some? {
      CanonicalAtTwice(e.url, forge);
    }
  }

  /** The configuration version counts every change of the address or of a pin. */
  lemma VersionCounts(w: World, forge: Forge, e: Event)
    requires Inv(w, forge) && w.row.Some?
    ensures var after := Step(w, forge, e);
            && after.row.Some?
            && (after.row.value.version == w.row.value.version || after.row.value.version == w.row.value.version + 1)
            && (after.row.value.(validation := w.row.value.validation) != w.row.value
                ==> after.row.value.version == w.row.value.version + 1)
  {
    hide CanonicalAt, Canonical, WriterSecret, PinOk;
  }

  /** Saving an address takes effect exactly when the caller saw the current version, which is none before
      the first save, the address is on the configured origin and no other customer's, the commit
      succeeds, and it names another repository than the one saved, which nothing has locked; it then
      starts afresh without credentials.  Otherwise nothing changes. */
  lemma AddressSavedIff(w: World, forge: Forge, expected: nat, url: string, taken: bool, locked: bool, commits: bool)
    ensures var after := Saved(w, forge, expected, url, taken, locked, commits);
            var version := if w.row.Some? then w.row.value.version else 0;
            var effective := expected == version && CanonicalAt(url, forge).Some? && !taken && commits
                             && (w.row.Some? ==> !locked && Canonical(w.row.value.url) != CanonicalAt(url, forge));
            && (!effective ==> after == w)
            && (effective ==>
                  after == World(Some(Row(CanonicalAt(url, forge).value, "", None, version + 1, None, None, Unvalidated)),
                                 w.writer, w.reader))
  {
    hide CanonicalAt, Canonical;
  }

  /** A validation is stored exactly when it was of the current configuration, the writer could be read
      and the commit succeeded; then the verdict is the one reached, and a valid writer without a pin is
      pinned at the version that was read. */
  lemma ValidationStored(w: World, forge: Forge, expected: nat, taken: bool, verdict: Validation, commits: bool)
    requires w.row.Some?
    ensures var after, r := Validated(w, forge, expected, taken, verdict, commits), w.row.value;
            var stored := expected == r.version && !taken && commits && WriterSecret(w, forge, true).Done?;
            && after.writer == w.writer && after.reader == w.reader
            && (!stored ==> after == w)
            && (stored ==>
                  && after.row.Some? && after.row.value.validation == verdict
                  && after.row.value.writerPin
                     == (if r.writerPin.None? && verdict == Valid then Some(WriterSecret(w, forge, true).value.1) else r.writerPin)
                  && after.row.value.readerPin == r.readerPin && after.row.value.url == r.url)
  {
    hide WriterSecret;
  }

  /** Whatever changes the address, a name or a pin, other than a validation itself, leaves the access to
      be validated again. */
  lemma ChangesUnvalidate(w: World, forge: Forge, e: Event)
    requires w.row.Some? && !e.Validate?
    ensures var after := Step(w, forge, e);
            && after.row.Some?
            && (after.row != w.row ==>
                  after.row.value.validation == Unvalidated && after.row.value.version == w.row.value.version + 1)
  {
    hide CanonicalAt, Canonical, CasOf;
  }

  /** After a lost reply or a failed commit the row is exactly what it was, and every version it pins
      is still there to be read; the store may hold one version more. */
  lemma FailureIsHarmless(w: World, forge: Forge, taken: bool, q: Replacement, reply: Reply, commits: bool)
    requires Inv(w, forge) && (reply != Answered || !commits)
    ensures var after := Replaced(w, forge, taken, q, reply, commits);
            && after.row == w.row && w.writer <= after.writer && w.reader <= after.reader
            && |after.writer| + |after.reader| <= |w.writer| + |w.reader| + 1
  {
    hide CanonicalAt, CasOf;
  }

  /** And it can always be recovered from: naming the latest version explicitly, a replacement that is
      answered and committed succeeds, whatever was lost before; a writer's always, a reader's exactly
      when it stays separate from the configured writer. */
  lemma AlwaysRecoverable(w: World, forge: Forge, kind: Kind, username: string, token: string)
    requires Inv(w, forge) && w.row.Some?
    ensures var q := Replacement(kind, w.row.value.version, username, token, Some(|Stored(w, kind)|));
            var after := Replaced(w, forge, false, q, Answered, true);
            && (kind == Writer || ReaderSeparate(w, forge, q) <==> after != w)
            && (after != w ==>
                  && after.row.Some? && Pin(after.row.value, kind) == Some(|Stored(w, kind)| + 1)
                  && Stored(after, kind)
                     == Stored(w, kind) + [Secret(username, token, CanonicalAt(w.row.value.url, forge))])
  {
    hide CanonicalAt, WriterSecret, ReaderSeparate;
    var q := Replacement(kind, w.row.value.version, username, token, Some(|Stored(w, kind)|));
    ReplacementTakesEffectIff(w, forge, false, q);
  }

  /** Without naming a version, a replacement that would silently build on an unseen write is refused:
      it takes effect only if the pin, or nothing at all, is the latest version. */
  lemma NoSilentOverwrite(w: World, forge: Forge, taken: bool, q: Replacement, reply: Reply, commits: bool)
    requires Inv(w, forge) && w.row.Some? && q.secretVersion.None?
    requires Replaced(w, forge, taken, q, reply, commits) != w
    ensures |Stored(w, q.kind)| == if Pin(w.row.value, q.kind).Some? then Pin(w.row.value, q.kind).value else 0
  {
    hide CanonicalAt, WriterSecret, PinOk;
  }

  /** The version a replacement builds on: the one it names, else the pinned one, else none. */
  function BuildsOn(w: World, q: Replacement): nat
    requires w.row.Some?
  {
    if q.secretVersion.Some? then q.secretVersion.value
    else if Pin(w.row.value, q.kind).Some? then Pin(w.row.value, q.kind).value else 0
  }

  /** A reader is separated from the configured writer: its token is another one, and one from before
      pinning is never replaced without naming its version. */
  predicate ReaderSeparate(w: World, forge: Forge, q: Replacement)
    requires w.row.Some?
  {
    var r := w.row.value;
    && (r.readerPin.None? && r.readerName.Some? ==> q.secretVersion.Some?)
    && (r.writerName != "" ==>
          WriterSecret(w, forge, true).Done? && WriterSecret(w, forge, true).value.0.token != q.token)
  }

  /** Exactly when a replacement that is answered and committed takes effect: the caller has seen the
      current configuration, no other customer has the address, it builds on the latest version there
      is, and a reader stays separate from the writer.  Every refusal is one of these failing. */
  lemma ReplacementTakesEffectIff(w: World, forge: Forge, taken: bool, q: Replacement)
    requires Inv(w, forge) && w.row.Some?
    ensures var after := Replaced(w, forge, taken, q, Answered, true);
            var effective := q.expected == w.row.value.version && !taken && BuildsOn(w, q) == |Stored(w, q.kind)|
                             && (q.kind == Reader ==> ReaderSeparate(w, forge, q));
            && (effective ==>
                  after.row == Some(Pinned(w.row.value, q, |Stored(w, q.kind)| + 1))
                  && Stored(after, q.kind)
                     == Stored(w, q.kind) + [Secret(q.username, q.token, CanonicalAt(w.row.value.url, forge))])
            && (!effective ==> after == w)
  {
    hide CanonicalAt, WriterSecret;
  }

  /** So a reader that was just replaced never carries the token of the writer in use. */
  lemma ReaderTokenDiffers(w: World, forge: Forge, taken: bool, q: Replacement, reply: Reply, commits: bool)
    requires Inv(w, forge) && q.kind == Reader
    requires Replaced(w, forge, taken, q, reply, commits).row != w.row
    ensures var after := Replaced(w, forge, taken, q, reply, commits);
            && after.row.Some? && after.row.value.readerPin == Some(|after.reader|)
            && (after.row.value.writerName != "" ==>
                  WriterSecret(after, forge, true).Done?
                  && WriterSecret(after, forge, true).value.0.token != after.reader[|after.reader| - 1].token)
  {
    hide CanonicalAt;
  }

  /** Replacing the writer makes no such check, as the reader's secret is write-only: a writer can be
      given the token its reader has. */
  lemma WriterMayTakeReaderToken(w: World, forge: Forge, username: string)
    requires Inv(w, forge) && w.row.Some? && w.row.value.readerPin.Some?
    ensures var token := w.reader[w.row.value.readerPin.value - 1].token;
            var q := Replacement(Writer, w.row.value.version, username, token, Some(|w.writer|));
            var after := Replaced(w, forge, false, q, Answered, true);
            && after.row.Some? && after.row.value.readerPin == w.row.value.readerPin
            && after.row.value.writerPin == Some(|after.writer|)
            && after.writer[|after.writer| - 1].token == token
  {
    hide CanonicalAt, WriterSecret;
    AlwaysRecoverable(w, forge, Writer, username, w.reader[w.row.value.readerPin.value - 1].token);
  }

  // ---- the service ----

  /** One customer's repository row beside the store. */
  class RepositoryService {
    const forge: Forge
    var row: Option<Row>
    var writer: Versions
    var reader: Versions

    constructor (forge: Forge)
      ensures this.forge == forge && State() == World(None, [], []) && Inv(State(), forge)
    {
      this.forge := forge;
      row, writer, reader := None, [], [];
    }

    function State(): World
      reads this
    {
      World(row, writer, reader)
    }

    /** Append a version if the caller names the latest one. */
    method WriteSecret(kind: Kind, cas: nat, s: Secret, reply: Reply) returns (a: Answer<nat>)
      modifies this
      ensures row == old(row)
      ensures State() == (if kind == Writer then old(State()).(writer := Appended(old(writer), cas, s, reply))
                          else old(State()).(reader := Appended(old(reader), cas, s, reply)))
      ensures a == if reply != Answered then Refused(StorageFailed)
                   else if cas == |Stored(old(State()), kind)| then Done(cas + 1) else Refused(VersionConflict)
    {
      var stored := if kind == Writer then writer else reader;
      if cas == |stored| && reply != NotApplied {
        if kind == Writer {
          writer := writer + [s];
        } else {
          reader := reader + [s];
        }
      }
      if reply != Answered {
        return Refused(StorageFailed);
      }
      return if cas == |stored| then Done(cas + 1) else Refused(VersionConflict);
    }

    /** The checks before the write, in their order; what passes is the version the write will name. */
    method CheckReplacement(q: Replacement, taken: bool) returns (a: Answer<nat>)
      ensures a == CasOf(State(), forge, taken, q)
    {
      hide CanonicalAt, WriterSecret;
      if row.None? {
        return Refused(NotConfigured);
      }
      var r := row.value;
      if q.expected != r.version {
        return Refused(StaleVersion);
      }
      if CanonicalAt(r.url, forge).None? {
        return Refused(BadUrl);
      }
      if taken {
        return Refused(Taken);
      }
      var pinned := if q.kind == Writer then r.writerPin else r.readerPin;
      var cas := q.secretVersion;
      if cas.None? {
        cas := pinned;
      }
      if pinned.Some? && cas.value < pinned.value {
        return Refused(VersionRegression);
      }
      if q.kind == Reader && cas.None? && r.readerName.Some? {
        return Refused(ConfirmationRequired);
      }
      if q.kind == Reader && r.writerName != "" {
        var secret := WriterSecret(State(), forge, true);
        if secret.Refused? {
          return Refused(secret.problem);
        }
        if secret.value.0.token == q.token {
          return Refused(SameToken);
        }
      }
      if q.kind == Writer && cas.None? && |writer| != 0 {
        return Refused(ConfirmationRequired);
      }
      return Done(if cas.Some? then cas.value else 0);
    }

    /** Replace a credential: write the secret, then pin it, unless the commit fails. */
    method ReplaceCredentials(q: Replacement, taken: bool, reply: Reply, commits: bool)
      returns (a: Answer<nat>)
      requires Inv(State(), forge) && q.username != ""
      modifies this
      ensures State() == Step(old(State()), forge, Replace(q, taken, reply, commits))
      ensures Inv(State(), forge)
      ensures a.Done? && commits ==> row.Some? && Pin(row.value, q.kind) == Some(a.value)
      ensures CasOf(old(State()), forge, taken, q).Refused? ==> a == CasOf(old(State()), forge, taken, q)
    {
      hide CanonicalAt, WriterSecret, CasOf, Inv;
      StepInv(State(), forge, Replace(q, taken, reply, commits));
      a := CheckReplacement(q, taken);
      if a.Refused? {
        return;
      }
      var r := row.value;
      a := WriteSecret(q.kind, a.value, Secret(q.username, q.token, CanonicalAt(r.url, forge)), reply);
      if a.Done? && commits {
        var version := Some(a.value);
        if q.kind == Writer {
          row := Some(r.(writerName := q.username, writerPin := version, version := r.version + 1, validation := Unvalidated));
        } else {
          row := Some(r.(readerName := Some(q.username), readerPin := version, version := r.version + 1, validation := Unvalidated));
        }
      }
    }

    /** Configure the address. */
    method SaveRepository(expected: nat, url: string, taken: bool, locked: bool, commits: bool)
      requires Inv(State(), forge)
      modifies this
      ensures State() == Step(old(State()), forge, Save(expected, url, taken, locked, commits))
      ensures Inv(State(), forge)
    {
      hide Canonical, CanonicalAt, Inv;
      StepInv(State(), forge, Save(expected, url, taken, locked, commits));
      var canonical := CanonicalAt(url, forge);
      if expected != (if row.None? then 0 else row.value.version) || canonical.None? || taken || !commits {
        return;
      }
      if row.None? {
        row := Some(Row(canonical.value, "", None, 1, None, None, Unvalidated));
        return;
      }
      if Canonical(row.value.url) == canonical || locked {
        return;
      }
      row := Some(Row(canonical.value, "", None, row.value.version + 1, None, None, Unvalidated));
    }

    /** Validate access, adopting a writer from before pinning. */
    method ValidateRepository(expected: nat, taken: bool, verdict: Validation, commits: bool)
      requires Inv(State(), forge)
      modifies this
      ensures State() == Step(old(State()), forge, Validate(expected, taken, verdict, commits))
      ensures Inv(State(), forge)
    {
      hide CanonicalAt, WriterSecret, Inv;
      StepInv(State(), forge, Validate(expected, taken, verdict, commits));
      if row.None? || expected != row.value.version || taken {
        return;
      }
      var secret := WriterSecret(State(), forge, true);
      if secret.Refused? || !commits {
        return;
      }
      var r := row.value;
      if verdict == Valid && r.writerPin.None? {
        r := r.(writerPin := Some(secret.value.1), version := r.version + 1);
      }
      row := Some(r.(validation := verdict));
    }
  }
}

/** The messages that cross the iframe boundary: the record an app hands to
    `send`, the normalised envelope that is posted to the parent, and the
    record that arrives from the host. */
module Wire {
  import opened Js

  /** `{ app?, type, request?, payload? }`, both as handed to `send` and as
      posted inside `{ type: "IFRAME_ACTION", payload: <envelope> }`.
      In a posted envelope an absent `app`/`type` is `undefined` and an
      absent `request` is `null`. */
  // `kind` is the `type` property (a reserved word here).
  datatype Data = Data(app: Option<string>, kind: Option<string>, request: Option<string>, payload: Value)

  /** What arrives through the window's `message` event. */
  datatype Inbound = Inbound(source: Option<string>, data: Data)

  const TrustedSource := "deskthing"

  predicate FromHost(m: Inbound) {
    m.source == Some(TrustedSource)
  }

  /** Severity of a message posted by the logging helpers. */
  datatype LogLevel = Debug | Error

  /** One `postMessage` to the parent: a normalised envelope, or a log line
      produced by the logging helpers (whose envelope strings come from an
      external package). */
  datatype Posted = Request(envelope: Data) | Log(level: LogLevel)

  /** Envelope built by the current `send`: `payload ?? null`. */
  function Normalize(d: Data): (r: Data)
    ensures !TruthyText(r.app) ==> r.app == None
    ensures !TruthyText(r.kind) ==> r.kind == None
    ensures !TruthyText(r.request) ==> r.request == None
    ensures !r.payload.Undefined?
  {
    Data(NonEmpty(d.app), NonEmpty(d.kind), NonEmpty(d.request), Coalesce(d.payload, Null))
  }

  /** Envelope built by the older `send` / `sendMessageToParent`: `payload || null`. */
  function NormalizeLegacy(d: Data): (r: Data)
    ensures !TruthyText(r.app) ==> r.app == None
    ensures !TruthyText(r.kind) ==> r.kind == None
    ensures !TruthyText(r.request) ==> r.request == None
    ensures Truthy(r.payload) || r.payload == Null
  {
    Data(NonEmpty(d.app), NonEmpty(d.kind), NonEmpty(d.request), Or(d.payload, Null))
  }

  /** The current envelope keeps every defined payload, falsy ones included,
      and only `undefined` becomes `null`; truthy string fields pass through. */
  lemma NormalizeKeepsDefinedPayload(d: Data)
    ensures Normalize(d).payload == (if d.payload.Undefined? then Null else d.payload)
    ensures TruthyText(d.app) ==> Normalize(d).app == d.app
    ensures TruthyText(d.kind) ==> Normalize(d).kind == d.kind
    ensures TruthyText(d.request) ==> Normalize(d).request == d.request
  {
  }

  /** The older envelope turns every falsy payload (`0`, `""`, `false`) into `null`. */
  lemma NormalizeLegacyDropsFalsy(d: Data)
    ensures NormalizeLegacy(d).payload == Null <==> !Truthy(d.payload)
    ensures Truthy(d.payload) ==> NormalizeLegacy(d).payload == d.payload
  {
  }

  /** The two normalisations differ exactly on falsy but defined payloads. */
  lemma NormalizationsAgreeUnlessFalsyPayload(d: Data)
    ensures Normalize(d) == NormalizeLegacy(d) <==> (Truthy(d.payload) || Nullish(d.payload))
  {
  }

  /** A posted envelope is already normal: normalising it again changes nothing. */
  lemma NormalizeIdempotent(d: Data)
    ensures Normalize(Normalize(d)) == Normalize(d)
    ensures NormalizeLegacy(NormalizeLegacy(d)) == NormalizeLegacy(d)
  {
  }
}

/**
  The two request gates (game-book-server/middleware/authMiddleware.js):
  `protect`, which reads the bearer token and resolves the vendor it names,
  and `validateSystemHealth`, which turns requests away while the health
  switch is off. Token verification is an oracle parameter (the payload a
  token decodes to, or None when it does not verify); a failing database
  call is a flag.
 */
module AuthMiddleware {
  import opened Common
  import opened JsText
  import opened SysHealth
  import opened AuthController

  /** What a gate does with a request: pass it on (with the vendor `protect` found), or answer it. */
  datatype Gate = Next(vendor: Option<Vendor>) | Stop(status: nat, message: string)

  const NoToken := "Not authorized, no token"
  const TokenFailed := "Not authorized, token failed"
  const VendorMissing := "Not authorized, vendor not found"

  /** `authorization.split(" ")[1]`, undefined when there is no second field. */
  function TokenOf(authorization: string): (t: Option<string>)
    ensures t.Some? <==> |SplitOn(authorization, ' ')| > 1
    ensures t.Some? ==> forall i :: 0 <= i < |t.value| ==> t.value[i] != ' '
  {
    var parts := SplitOn(authorization, ' ');
    if |parts| > 1 then Some(parts[1]) else None
  }

  /** The token of a well-formed header "Bearer <token>" is the token itself. */
  lemma BearerToken(token: string)
    requires forall i :: 0 <= i < |token| ==> token[i] != ' '
    ensures TokenOf("Bearer " + token) == Some(token)
  {
    assert "Bearer " + token == "Bearer" + [' '] + token;
    SplitAtFirst("Bearer", token, ' ');
    SplitNoSeparator(token, ' ');
  }

  /** `Vendor.findById`: the vendor with that id, if any. */
  function VendorById(vendors: seq<Vendor>, id: string): (v: Option<Vendor>)
    ensures v.Some? ==> v.value in vendors && v.value.id == id
    ensures v.None? <==> forall j :: 0 <= j < |vendors| ==> vendors[j].id != id
  {
    if vendors == [] then None
    else if vendors[0].id == id then Some(vendors[0])
    else VendorById(vendors[1..], id)
  }

  /**
    protect: 401 "no token" unless the header starts with "Bearer"; 401
    "token failed" when there is no token, it is empty (jsonwebtoken throws
    before consulting the key), it does not verify, or the lookup fails; 401 "vendor not found" when the payload names no vendor
    (an admin payload has no top-level id, and `findById(undefined)` finds
    nothing); otherwise the request goes on with the vendor, password
    removed.
   */
  function Protect(authorization: Option<string>, verify: string -> Option<Payload>, vendors: seq<Vendor>,
                   lookupFails: bool): (g: Gate)
    ensures authorization.None? || !StartsWith(authorization.value, "Bearer") ==> g == Stop(401, NoToken)
    ensures g.Next? <==>
      (&& authorization.Some? && StartsWith(authorization.value, "Bearer")
       && TokenOf(authorization.value).Some? && TokenOf(authorization.value).value != "" && !lookupFails
       && verify(TokenOf(authorization.value).value).Some?
       && verify(TokenOf(authorization.value).value).value.VendorPayload?
       && VendorById(vendors, verify(TokenOf(authorization.value).value).value.id).Some?)
    ensures g.Next? ==>
      (g.vendor.Some? && g.vendor.value.password == ""
       && g.vendor.value.id == verify(TokenOf(authorization.value).value).value.id)
    ensures g.Stop? ==> g.status == 401 && g.message in {NoToken, TokenFailed, VendorMissing}
  {
    if authorization.None? || !StartsWith(authorization.value, "Bearer") then Stop(401, NoToken)
    else
      var token := TokenOf(authorization.value);
      if token.None? || token.value == "" || lookupFails then Stop(401, TokenFailed)
      else
        match verify(token.value)
        case None => Stop(401, TokenFailed)
        case Some(AdminPayload(_, _)) => Stop(401, VendorMissing)
        case Some(VendorPayload(id)) =>
          match VendorById(vendors, id)
          case None => Stop(401, VendorMissing)
          case Some(v) => Next(Some(v.(password := "")))
  }

  /** "Bearer " with nothing after it fails verification whatever the key: jsonwebtoken refuses an empty token. */
  lemma EmptyTokenFails(verify: string -> Option<Payload>, vendors: seq<Vendor>, lookupFails: bool)
    ensures Protect(Some("Bearer "), verify, vendors, lookupFails) == Stop(401, TokenFailed)
  {
    BearerToken("");
    assert "Bearer " + "" == "Bearer ";
    assert StartsWith("Bearer ", "Bearer") by {
      assert "Bearer "[..6] == "Bearer";
    }
  }

  /** The payload login signs for an admin never passes protect. */
  lemma AdminTokenRejected(token: string, verify: string -> Option<Payload>, vendors: seq<Vendor>, a: Admin,
                           lookupFails: bool)
    requires forall i :: 0 <= i < |token| ==> token[i] != ' '
    requires verify(token) == Some(PayloadOf(AdminAccount(a)))
    ensures Protect(Some("Bearer " + token), verify, vendors, lookupFails).Stop?
  {
    BearerToken(token);
  }

  /**
    The payload login signs for a vendor passes protect, and yields that
    vendor, while the vendor exists; a signed token is never empty.
   */
  lemma VendorTokenAccepted(token: string, verify: string -> Option<Payload>, vendors: seq<Vendor>, v: Vendor)
    requires token != [] && forall i :: 0 <= i < |token| ==> token[i] != ' '
    requires verify(token) == Some(PayloadOf(VendorAccount(v)))
    requires v in vendors && forall j :: 0 <= j < |vendors| && vendors[j].id == v.id ==> vendors[j] == v
    ensures Protect(Some("Bearer " + token), verify, vendors, false) == Next(Some(v.(password := "")))
  {
    BearerToken(token);
    assert StartsWith("Bearer " + token, "Bearer") by {
      assert ("Bearer " + token)[..6] == "Bearer";
    }
  }

  /** "Bearer" glued to the token passes the prefix test but has no token field. */
  lemma GluedBearerFails(verify: string -> Option<Payload>, vendors: seq<Vendor>, lookupFails: bool)
    ensures Protect(Some("Bearerabc"), verify, vendors, lookupFails) == Stop(401, TokenFailed)
  {
    assert StartsWith("Bearerabc", "Bearer") by {
      assert "Bearerabc"[..6] == "Bearer";
    }
    SplitNoSeparator("Bearerabc", ' ');
  }

  // ---------------------------------------------------------------------------
  // The health gate

  /** `req.path || req.originalUrl || ''`. */
  function RequestPath(path: string, originalUrl: string): string
  {
    if path != "" then path else originalUrl
  }

  /** The paths the health gate never blocks: any containing '/login' or '/test', and '/'. */
  predicate Bypassed(path: string)
  {
    Contains(path, "/login") || Contains(path, "/test") || path == "/"
  }

  const MaintenanceDefault := "App is currently under maintenance. Please try again later."

  /** `sysHealth.reason || default`: the 503 message for a disabled record. */
  function BlockMessage(r: HealthRecord): (m: string)
    ensures r.reason != "" ==> m == r.reason
    ensures r.reason == "" ==> m == MaintenanceDefault
  {
    if r.reason != "" then r.reason else MaintenanceDefault
  }

  /**
    validateSystemHealth: bypassed paths pass untouched; otherwise the
    record is read (and created enabled when missing), and a disabled one
    answers 503 with its reason, or the default message when the reason is
    empty. A stored reason is never empty, so the default is never the
    answer. A failing database call lets the request through.
   */
  method ValidateSystemHealth(h: HealthStore, path: string, originalUrl: string, dbFails: bool, now: int)
    returns (g: Gate)
    requires h.Valid()
    modifies h
    ensures h.Valid()
    ensures Bypassed(RequestPath(path, originalUrl)) || dbFails ==> g == Next(None) && h.record == old(h.record)
    ensures !Bypassed(RequestPath(path, originalUrl)) && !dbFails ==>
      (&& (old(h.record).Some? ==> h.record == old(h.record))
       && (old(h.record).None? ==> h.record == Some(HealthRecord(true, DefaultReason, now)))
       && (g.Stop? <==> !h.record.value.isEnabled)
       && (g.Stop? ==> g == Stop(503, BlockMessage(h.record.value)))
       && (g.Stop? ==> g.message == h.record.value.reason)
       && (g.Next? ==> g == Next(None)))
  {
    if Bypassed(RequestPath(path, originalUrl)) || dbFails {
      return Next(None);
    }
    if h.record.None? {
      h.Create(true, None, now);
    }
    var r := h.record.value;
    if !r.isEnabled {
      return Stop(503, BlockMessage(r));
    }
    return Next(None);
  }

  /** A login request is never blocked, whatever the switch says. */
  lemma LoginAlwaysPasses(prefix: string, suffix: string)
    ensures Bypassed(prefix + "/login" + suffix)
  {
    ContainsAt(prefix + "/login" + suffix, "/login", |prefix|);
  }
}

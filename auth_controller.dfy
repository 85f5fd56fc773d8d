/**
  The login decision (game-book-server/controllers/authController.js): the
  choice and cleaning of the identifier, the admin-then-vendor lookup with
  its mobile-number normalisation, the approval gate, the password check and
  the shape of the token payload. The password hash comparison is an
  oracle parameter; a failing lookup query is a flag.
 */
module AuthController {
  import opened Common
  import opened JsText

  /** A value of the JSON body: a string, or any other JSON value with its truthiness and its `String()` text. */
  datatype JsonValue = JsonString(s: string) | JsonOther(truthy: bool, shown: string)

  predicate Truthy(v: Option<JsonValue>)
  {
    v.Some? && match v.value
      case JsonString(s) => s != ""
      case JsonOther(t, _) => t
  }

  /** `String(v)`. */
  function Shown(v: JsonValue): string
  {
    match v
    case JsonString(s) => s
    case JsonOther(_, shown) => shown
  }

  function Field(body: map<string, JsonValue>, name: string): Option<JsonValue>
  {
    if name in body then Some(body[name]) else None
  }

  /** `identifier || email || mobile || username`: the first truthy of the four fields. */
  function Identifier(body: map<string, JsonValue>): (v: Option<JsonValue>)
    ensures Truthy(v) <==> exists n :: n in ["identifier", "email", "mobile", "username"] && Truthy(Field(body, n))
    ensures Truthy(Field(body, "identifier")) ==> v == Field(body, "identifier")
    ensures !Truthy(Field(body, "identifier")) && Truthy(Field(body, "email")) ==> v == Field(body, "email")
    ensures (!Truthy(Field(body, "identifier")) && !Truthy(Field(body, "email")) && Truthy(Field(body, "mobile")))
      ==> v == Field(body, "mobile")
    ensures (Truthy(v) && !Truthy(Field(body, "identifier")) && !Truthy(Field(body, "email"))
             && !Truthy(Field(body, "mobile")))
      ==> v == Field(body, "username")
  {
    if Truthy(Field(body, "identifier")) then Field(body, "identifier")
    else if Truthy(Field(body, "email")) then Field(body, "email")
    else if Truthy(Field(body, "mobile")) then Field(body, "mobile")
    else Field(body, "username")
  }

  const BodyRequired := "Request body is required. Please send JSON with 'identifier' (or 'email'/'mobile') and 'password' fields."
  const MissingCredentials := "Please provide your mobile number (or username) and password to login."
  const EmptyCredentials := "Mobile number (or username) and password cannot be empty. Please enter valid credentials."
  const DatabaseError := "Database connection error. Please try again later."
  const VendorNotFound := "Vendor account not found. Please check your mobile number or contact admin for registration."
  const UnknownUser := "Invalid username or mobile number. Please check your credentials."
  const VendorPasswordNotSet := "Vendor account password not set. Please contact admin to set your password."
  const PasswordNotSet := "Account password not set. Please contact admin."
  const VendorWrongPassword := "Incorrect password. Please check your password or use 'Forgot Password' if available."
  const WrongPassword := "Incorrect password. Please check your credentials."
  const LoginSuccessful := "Login successful!"

  /** The cleaned identifier and password, or the 400 message that rejects the body. */
  datatype Credentials = Credentials(identifier: string, password: string) | Rejected(message: string)

  /**
    The body checks: a missing or empty body, a missing identifier or
    password, and one that trims to nothing are each rejected; otherwise
    both are trimmed.
   */
  function CleanCredentials(body: Option<map<string, JsonValue>>): (c: Credentials)
    ensures body.None? || body.value == map[] ==> c == Rejected(BodyRequired)
    ensures body.Some? && body.value != map[]
      && (!Truthy(Identifier(body.value)) || !Truthy(Field(body.value, "password")))
      ==> c == Rejected(MissingCredentials)
    ensures c.Rejected? ==> c.message in {BodyRequired, MissingCredentials, EmptyCredentials}
    ensures c.Credentials? ==> && body.Some? && Truthy(Identifier(body.value)) && Truthy(Field(body.value, "password"))
                               && c.identifier == Trim(Shown(Identifier(body.value).value))
                               && c.password == Trim(Shown(Field(body.value, "password").value))
                               && c.identifier != "" && c.password != ""
  {
    if body.None? || body.value == map[] then Rejected(BodyRequired)
    else
      var identifier := Identifier(body.value);
      var password := Field(body.value, "password");
      if !Truthy(identifier) || !Truthy(password) then Rejected(MissingCredentials)
      else
        var id, pw := Trim(Shown(identifier.value)), Trim(Shown(password.value));
        if id == "" || pw == "" then Rejected(EmptyCredentials) else Credentials(id, pw)
  }

  /** A body whose identifier or password is blank is rejected, never looked up. */
  lemma BlankCredentialsRejected(body: map<string, JsonValue>)
    requires body != map[] && Truthy(Identifier(body)) && Truthy(Field(body, "password"))
    requires forall i :: 0 <= i < |Shown(Identifier(body).value)| ==> IsJsWhitespace(Shown(Identifier(body).value)[i])
    ensures CleanCredentials(Some(body)) == Rejected(EmptyCredentials)
  {
    TrimEmptyIffBlank(Shown(Identifier(body).value));
  }

  // ---------------------------------------------------------------------------
  // Mobile numbers

  /** The characters `/[\s\-\(\)]/` matches. */
  predicate IsSeparator(c: char)
  {
    IsJsWhitespace(c) || c == '-' || c == '(' || c == ')'
  }

  /** `replace(/[\s\-\(\)]/g, '')`: whitespace, dashes and brackets removed, nothing else changed. */
  function NormalizeMobile(s: string): string
  {
    Keep(s, c => !IsSeparator(c))
  }

  /** Normalising leaves no separator and every other character as often as it was. */
  lemma NormalizeMobileFilters(s: string)
    ensures forall i :: 0 <= i < |NormalizeMobile(s)| ==> !IsSeparator(NormalizeMobile(s)[i])
    ensures forall c :: !IsSeparator(c) ==> multiset(NormalizeMobile(s))[c] == multiset(s)[c]
  {
    KeepIsFilter(s, c => !IsSeparator(c));
  }

  /** Normalising a normalised number changes nothing. */
  lemma NormalizeMobileIdempotent(s: string)
    ensures NormalizeMobile(NormalizeMobile(s)) == NormalizeMobile(s)
  {
    KeepIdempotent(s, c => !IsSeparator(c));
  }

  /** `/^\d{10,}$/`: ten or more decimal digits and nothing else. */
  predicate LooksLikeMobile(s: string)
  {
    |s| >= 10 && AllDigits(s)
  }

  /** A number of digits is its own normal form. */
  lemma DigitsKept(s: string)
    requires AllDigits(s)
    ensures NormalizeMobile(s) == s
  {
    KeepIdentity(s, c => !IsSeparator(c));
  }

  /** A separator between two groups of digits is dropped and the groups are joined. */
  lemma SeparatorDropped(a: string, sep: char, b: string)
    requires IsSeparator(sep)
    ensures NormalizeMobile(a + [sep] + b) == NormalizeMobile(a) + NormalizeMobile(b)
  {
    var p := (c: char) => !IsSeparator(c);
    KeepAppend(a + [sep], b, p);
    KeepAppend(a, [sep], p);
    assert [sep][..0] == [];
  }

  /** A number written as two groups of digits split by a dash, a bracket or a space is classified by its digits. */
  lemma FormattedMobileLooksLikeMobile(a: string, sep: char, b: string)
    requires AllDigits(a) && AllDigits(b) && IsSeparator(sep) && |a| + |b| >= 10
    ensures NormalizeMobile(a + [sep] + b) == a + b
    ensures LooksLikeMobile(NormalizeMobile(a + [sep] + b))
  {
    SeparatorDropped(a, sep, b);
    DigitsKept(a);
    DigitsKept(b);
  }

  // ---------------------------------------------------------------------------
  // Accounts

  datatype Admin = Admin(id: string, username: string, password: string)

  /** A vendor; password is "" when no hash is stored. */
  datatype Vendor = Vendor(id: string, mobile: string, status: string, password: string, businessName: string)

  datatype Directory = Directory(admins: seq<Admin>, vendors: seq<Vendor>)

  datatype Account = AdminAccount(admin: Admin) | VendorAccount(vendor: Vendor)

  /** `User.findOne({ username, role: 'admin' })`: the first admin with that username. */
  function AdminIndex(admins: seq<Admin>, username: string): (k: Option<nat>)
    ensures k.Some? ==> k.value < |admins| && admins[k.value].username == username
    ensures k.Some? ==> forall j :: 0 <= j < k.value ==> admins[j].username != username
    ensures k.None? <==> forall j :: 0 <= j < |admins| ==> admins[j].username != username
  {
    if admins == [] then None
    else if admins[0].username == username then Some(0)
    else match AdminIndex(admins[1..], username)
      case None => None
      case Some(k) => Some(k + 1)
  }

  /** `Vendor.findOne` on mobile being one of the given numbers: the first such vendor. */
  function VendorIndex(vendors: seq<Vendor>, a: string, b: string): (k: Option<nat>)
    ensures k.Some? ==> k.value < |vendors| && vendors[k.value].mobile in {a, b}
    ensures k.Some? ==> forall j :: 0 <= j < k.value ==> vendors[j].mobile !in {a, b}
    ensures k.None? <==> forall j :: 0 <= j < |vendors| ==> vendors[j].mobile !in {a, b}
  {
    if vendors == [] then None
    else if vendors[0].mobile in {a, b} then Some(0)
    else match VendorIndex(vendors[1..], a, b)
      case None => None
      case Some(k) => Some(k + 1)
  }

  /**
    The account an identifier names: an admin with that username first; else
    a vendor with that mobile; else a vendor with the normalised mobile.
   */
  function AccountFor(d: Directory, identifier: string): (user: Option<Account>)
    ensures AdminIndex(d.admins, identifier).Some? ==>
      user == Some(AdminAccount(d.admins[AdminIndex(d.admins, identifier).value]))
    ensures AdminIndex(d.admins, identifier).None? && VendorIndex(d.vendors, identifier, identifier).Some? ==>
      user == Some(VendorAccount(d.vendors[VendorIndex(d.vendors, identifier, identifier).value]))
    ensures AdminIndex(d.admins, identifier).None? && VendorIndex(d.vendors, identifier, identifier).None? ==>
      match VendorIndex(d.vendors, identifier, NormalizeMobile(identifier))
      case None => user.None?
      case Some(k) => user == Some(VendorAccount(d.vendors[k])) && d.vendors[k].mobile == NormalizeMobile(identifier)
    ensures user.None? <==> (&& (forall j :: 0 <= j < |d.admins| ==> d.admins[j].username != identifier)
                             && (forall j :: 0 <= j < |d.vendors| ==>
                                   d.vendors[j].mobile != identifier && d.vendors[j].mobile != NormalizeMobile(identifier)))
  {
    match AdminIndex(d.admins, identifier)
    case Some(a) => Some(AdminAccount(d.admins[a]))
    case None =>
      match VendorIndex(d.vendors, identifier, identifier)
      case Some(v) => Some(VendorAccount(d.vendors[v]))
      case None =>
        match VendorIndex(d.vendors, identifier, NormalizeMobile(identifier))
        case Some(v) => Some(VendorAccount(d.vendors[v]))
        case None => None
  }

  /** An admin of that username wins whatever vendors there are. */
  lemma AdminComesFirst(d: Directory, vendors: seq<Vendor>, identifier: string)
    requires AdminIndex(d.admins, identifier).Some?
    ensures AccountFor(d, identifier) == AccountFor(d.(vendors := vendors), identifier)
    ensures AccountFor(d, identifier).Some? && AccountFor(d, identifier).value.AdminAccount?
  {
  }

  /** The lookup cascade of login, reassigning the user found step by step. */
  method FindAccount(d: Directory, identifier: string) returns (user: Option<Account>)
    ensures user == AccountFor(d, identifier)
  {
    user := None;
    var a := AdminIndex(d.admins, identifier);
    if a.Some? {
      user := Some(AdminAccount(d.admins[a.value]));
    } else {
      var v := VendorIndex(d.vendors, identifier, identifier);
      if v.None? {
        v := VendorIndex(d.vendors, identifier, NormalizeMobile(identifier));
      }
      if v.Some? {
        user := Some(VendorAccount(d.vendors[v.value]));
      }
    }
  }

  /** The 403 message for a vendor that is not approved. */
  function StatusMessage(status: string): (m: string)
    ensures status == "pending" ==> m == "Your vendor account is pending approval. Please wait for admin approval or contact support."
    ensures status != "pending" && status != "rejected" && status != "suspended" && status != "inactive" ==>
      m == "Your vendor account is " + status + ". Please contact admin."
  {
    if status == "pending" then "Your vendor account is pending approval. Please wait for admin approval or contact support."
    else if status == "rejected" then "Your vendor account has been rejected. Please contact admin for assistance."
    else if status == "suspended" then "Your vendor account has been suspended. Please contact admin to resolve this issue."
    else if status == "inactive" then "Your vendor account is inactive. Please contact admin to activate your account."
    else "Your vendor account is " + status + ". Please contact admin."
  }

  /** The signed payload: `{ id }` for a vendor, `{ user: { id, role } }` for an admin. */
  datatype Payload = VendorPayload(id: string) | AdminPayload(userId: string, role: string)

  function PayloadOf(a: Account): (p: Payload)
    ensures a.VendorAccount? <==> p.VendorPayload?
    ensures a.VendorAccount? ==> p == VendorPayload(a.vendor.id)
    ensures a.AdminAccount? ==> p == AdminPayload(a.admin.id, "admin")
  {
    match a
    case VendorAccount(v) => VendorPayload(v.id)
    case AdminAccount(u) => AdminPayload(u.id, "admin")
  }

  datatype LoginReply = LoginReply(status: nat, message: string, payload: Option<Payload>)

  function PasswordHash(a: Account): string
  {
    match a
    case AdminAccount(u) => u.password
    case VendorAccount(v) => v.password
  }

  /** The account is one a password may unlock: an admin, or an approved vendor. */
  predicate MayLogIn(a: Account)
  {
    a.AdminAccount? || a.vendor.status == "approved"
  }

  /**
    login: the body checks (400), the lookup (503 when it fails, 401 when
    nobody matches), the approval gate (403, before any password is
    compared), the stored hash and the password (401), and on success the
    payload for the account found.
   */
  method Login(d: Directory, body: Option<map<string, JsonValue>>, lookupFails: bool,
               matches: (string, string) -> bool)
    returns (reply: LoginReply)
    ensures CleanCredentials(body).Rejected? ==> reply == LoginReply(400, CleanCredentials(body).message, None)
    ensures CleanCredentials(body).Credentials? && lookupFails ==> reply == LoginReply(503, DatabaseError, None)
    ensures CleanCredentials(body).Credentials? && !lookupFails ==>
      reply == Decide(AccountFor(d, CleanCredentials(body).identifier), CleanCredentials(body).identifier,
                      CleanCredentials(body).password, matches)
  {
    var creds := CleanCredentials(body);
    if creds.Rejected? {
      return LoginReply(400, creds.message, None);
    }
    if lookupFails {
      return LoginReply(503, DatabaseError, None);
    }
    var user := FindAccount(d, creds.identifier);
    reply := Decide(user, creds.identifier, creds.password, matches);
  }

  /** What login answers once the lookup has run. */
  function Decide(user: Option<Account>, identifier: string, password: string, matches: (string, string) -> bool)
    : (reply: LoginReply)
    ensures user.None? ==>
      reply == LoginReply(401, if LooksLikeMobile(NormalizeMobile(identifier)) then VendorNotFound else UnknownUser, None)
    ensures user.Some? && !MayLogIn(user.value) ==>
      reply == LoginReply(403, StatusMessage(user.value.vendor.status), None)
    ensures reply.status == 200 <==>
      user.Some? && MayLogIn(user.value) && PasswordHash(user.value) != "" && matches(password, PasswordHash(user.value))
    ensures reply.status == 200 ==> reply == LoginReply(200, LoginSuccessful, Some(PayloadOf(user.value)))
    ensures reply.status != 200 ==> reply.payload.None? && reply.status in {401, 403}
  {
    if user.None? then
      LoginReply(401, if LooksLikeMobile(NormalizeMobile(identifier)) then VendorNotFound else UnknownUser, None)
    else
      var a := user.value;
      if !MayLogIn(a) then LoginReply(403, StatusMessage(a.vendor.status), None)
      else if PasswordHash(a) == "" then
        LoginReply(401, if a.VendorAccount? then VendorPasswordNotSet else PasswordNotSet, None)
      else if !matches(password, PasswordHash(a)) then
        LoginReply(401, if a.VendorAccount? then VendorWrongPassword else WrongPassword, None)
      else LoginReply(200, LoginSuccessful, Some(PayloadOf(a)))
  }

  /** A vendor that is not approved is refused whatever password is given. */
  lemma UnapprovedVendorRefused(v: Vendor, identifier: string, password: string, matches: (string, string) -> bool)
    requires v.status != "approved"
    ensures Decide(Some(VendorAccount(v)), identifier, password, matches).status == 403
  {
  }

  /** Login hands out a vendor payload only to an approved vendor, and an admin payload only to an admin. */
  lemma PayloadMatchesAccount(user: Option<Account>, identifier: string, password: string,
                              matches: (string, string) -> bool)
    ensures var r := Decide(user, identifier, password, matches);
      r.payload.Some? && r.payload.value.VendorPayload? ==>
        user.Some? && user.value.VendorAccount? && user.value.vendor.status == "approved"
        && r.payload.value.id == user.value.vendor.id
    ensures var r := Decide(user, identifier, password, matches);
      r.payload.Some? && r.payload.value.AdminPayload? ==> user.Some? && user.value.AdminAccount?
  {
  }
}

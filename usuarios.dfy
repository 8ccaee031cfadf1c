/** The in-memory user store of backend/tests/test_validation.py, standing in
    for the /register and /login routes. Request bodies are string-keyed
    dicts; each operation answers with a payload and an HTTP status.

    The password-hashing library is a pair of parameters: `hash` (werkzeug's
    generate_password_hash) and `check` (check_password_hash). Their one
    assumed law, that a password checks against its own hash, is the
    predicate HashRoundTrip, taken as a hypothesis where it is needed. */
module Usuarios {
  import opened Common

  const BadRequest: int := 400
  const Unauthorized: int := 401
  const Ok: int := 200
  const Created: int := 201

  /** Keys `register_mock` and `login_mock` insist on. */
  const RegisterKeys: set<string> := {"nombre", "email", "password", "rol"}
  const LoginKeys: set<string> := {"email", "password"}

  const MsgFaltanCampos: string := "Faltan campos obligatorios"
  const MsgCorreoRegistrado: string := "El correo ya está registrado"
  const MsgRegistrado: string := "Usuario registrado correctamente"
  const MsgCorreoNoEncontrado: string := "Correo no encontrado"
  const MsgContrasenaIncorrecta: string := "Contraseña incorrecta"
  const MsgLoginCorrecto: string := "Inicio de sesión correcto"

  /** One stored user; only the hash of the password is kept. */
  datatype Usuario = Usuario(
    id: Id,
    nombre: string,
    email: string,
    passwordHash: string,
    rol: string,
    createdAt: Timestamp)

  /** The body of a /register answer: on success it echoes the public fields
      and the new size, and has no place for the password or its hash. */
  datatype RegisterPayload =
    | Registrado(message: string, userId: Id, nombre: string, email: string, rol: string, total: nat)
    | RegisterError(error: string)

  /** The body of a /login answer: on success the user's id, name and role,
      and no place for the hash. */
  datatype LoginPayload =
    | Autenticado(message: string, userId: Id, nombre: string, rol: string)
    | LoginError(error: string)

  /** The assumed law of the hashing library: a password verifies against
      the hash made from it. */
  ghost predicate HashRoundTrip(hash: string -> string, check: (string, string) -> bool) {
    forall p :: check(hash(p), p)
  }

  /** `not data or not all(k in data for k in keys)`. */
  predicate MissingFields(data: map<string, string>, keys: set<string>) {
    data == map[] || !(keys <= data.Keys)
  }

  /** No user in `us` has the email `email`. */
  predicate NoUserWithEmail(us: seq<Usuario>, email: string) {
    forall k :: 0 <= k < |us| ==> us[k].email != email
  }

  /** No two users share an email. */
  predicate DistinctEmails(us: seq<Usuario>) {
    forall j, k :: 0 <= j < k < |us| ==> us[j].email != us[k].email
  }

  /** `k` is the position of the first user whose email is `email`. */
  predicate FirstWithEmail(us: seq<Usuario>, email: string, k: int) {
    0 <= k < |us| && us[k].email == email &&
    forall j :: 0 <= j < k ==> us[j].email != email
  }

  /** The generator `next((u for u in usuarios if u["email"] == email), None)`,
      as the position of the user it yields. */
  function IndexOfEmail(us: seq<Usuario>, email: string): (r: Option<nat>)
    ensures r.None? <==> NoUserWithEmail(us, email)
    ensures r.Some? ==> FirstWithEmail(us, email, r.value)
  {
    if |us| == 0 then None
    else if us[0].email == email then Some(0)
    else match IndexOfEmail(us[1..], email)
      case None => None
      case Some(k) => Some(k + 1)
  }

  /** The record `register_mock` appends. */
  function NewUsuario(data: map<string, string>, hash: string -> string, now: Timestamp, newId: Id): Usuario
    requires RegisterKeys <= data.Keys
  {
    Usuario(newId, data["nombre"], data["email"], hash(data["password"]), data["rol"], now)
  }

  /** `login_mock`: 400 when a key is missing, 401 when no user has the email
      or the password does not verify against the first such user's hash,
      200 with that user's id, name and role otherwise. */
  function Login(data: map<string, string>, usuarios: seq<Usuario>, check: (string, string) -> bool)
    : (r: (LoginPayload, int))
    ensures r.1 == BadRequest <==> MissingFields(data, LoginKeys)
    ensures r.1 == BadRequest ==> r.0 == LoginError(MsgFaltanCampos)
    ensures !MissingFields(data, LoginKeys) && NoUserWithEmail(usuarios, data["email"]) ==>
      r == (LoginError(MsgCorreoNoEncontrado), Unauthorized)
    ensures !MissingFields(data, LoginKeys) ==>
      forall k :: FirstWithEmail(usuarios, data["email"], k) ==>
        r == if check(usuarios[k].passwordHash, data["password"])
             then (Autenticado(MsgLoginCorrecto, usuarios[k].id, usuarios[k].nombre, usuarios[k].rol), Ok)
             else (LoginError(MsgContrasenaIncorrecta), Unauthorized)
    ensures r.1 == Ok <==>
      !MissingFields(data, LoginKeys) &&
      exists k :: FirstWithEmail(usuarios, data["email"], k) && check(usuarios[k].passwordHash, data["password"])
    ensures r.1 in {BadRequest, Unauthorized, Ok}
  {
    if MissingFields(data, LoginKeys) then (LoginError(MsgFaltanCampos), BadRequest)
    else match IndexOfEmail(usuarios, data["email"])
      case None => (LoginError(MsgCorreoNoEncontrado), Unauthorized)
      case Some(k) =>
        var user := usuarios[k];
        if !check(user.passwordHash, data["password"]) then (LoginError(MsgContrasenaIncorrecta), Unauthorized)
        else (Autenticado(MsgLoginCorrecto, user.id, user.nombre, user.rol), Ok)
  }

  /** Appending a user whose email nobody has keeps emails distinct. */
  lemma AppendFreshEmailKeepsDistinct(us: seq<Usuario>, u: Usuario)
    requires DistinctEmails(us)
    requires NoUserWithEmail(us, u.email)
    ensures DistinctEmails(us + [u])
  {
  }

  /** A user appended under a fresh email, with the hash of `password`,
      logs in with that email and password, and gets back its own id,
      name and role. */
  lemma LoginAfterAppend(us: seq<Usuario>, u: Usuario, password: string,
                         hash: string -> string, check: (string, string) -> bool)
    requires HashRoundTrip(hash, check)
    requires u.passwordHash == hash(password)
    requires NoUserWithEmail(us, u.email)
    ensures Login(map["email" := u.email, "password" := password], us + [u], check)
         == (Autenticado(MsgLoginCorrecto, u.id, u.nombre, u.rol), Ok)
  {
    var t := us + [u];
    var data := map["email" := u.email, "password" := password];
    assert !MissingFields(data, LoginKeys) by {
      assert data.Keys == LoginKeys;
    }
    assert FirstWithEmail(t, u.email, |us|);
    assert IndexOfEmail(t, u.email) == Some(|us|);
    assert check(t[|us|].passwordHash, password) by {
      assert check(hash(password), password);
    }
  }

  /** What `register_mock` appends on success can log in straight away:
      its email and password yield 200 and its id, name and role. */
  lemma LoginAfterRegister(us: seq<Usuario>, data: map<string, string>,
                           hash: string -> string, check: (string, string) -> bool, now: Timestamp, newId: Id)
    requires HashRoundTrip(hash, check)
    requires !MissingFields(data, RegisterKeys)
    requires IndexOfEmail(us, data["email"]).None?
    ensures Login(map["email" := data["email"], "password" := data["password"]],
                  us + [NewUsuario(data, hash, now, newId)], check)
         == (Autenticado(MsgLoginCorrecto, newId, data["nombre"], data["rol"]), Ok)
  {
    LoginAfterAppend(us, NewUsuario(data, hash, now, newId), data["password"], hash, check);
  }

  /** A user list of the store: `usuarios_local` of the tests, the list
      `register_mock` appends to. */
  class UsuarioList {
    var usuarios: seq<Usuario>

    constructor (initial: seq<Usuario>)
      ensures usuarios == initial
    {
      usuarios := initial;
    }

    /** `register_mock`: first the required-keys check, then the scan for
        a duplicate email, then the append of a user holding only the hash. */
    method Register(data: map<string, string>, hash: string -> string, now: Timestamp, newId: Id)
      returns (payload: RegisterPayload, status: int)
      modifies this
      ensures MissingFields(data, RegisterKeys) ==>
        payload == RegisterError(MsgFaltanCampos) && status == BadRequest && usuarios == old(usuarios)
      ensures !MissingFields(data, RegisterKeys) && IndexOfEmail(old(usuarios), data["email"]).Some? ==>
        payload == RegisterError(MsgCorreoRegistrado) && status == BadRequest && usuarios == old(usuarios)
      ensures !MissingFields(data, RegisterKeys) && IndexOfEmail(old(usuarios), data["email"]).None? ==>
        usuarios == old(usuarios) + [NewUsuario(data, hash, now, newId)] &&
        payload == Registrado(MsgRegistrado, newId, data["nombre"], data["email"], data["rol"], |usuarios|) &&
        status == Created
      ensures DistinctEmails(old(usuarios)) ==> DistinctEmails(usuarios)
    {
      if data == map[] || !(RegisterKeys <= data.Keys) {
        return RegisterError(MsgFaltanCampos), BadRequest;
      }
      for i := 0 to |usuarios|
        invariant usuarios == old(usuarios)
        invariant forall j :: 0 <= j < i ==> usuarios[j].email != data["email"]
      {
        if usuarios[i].email == data["email"] {
          return RegisterError(MsgCorreoRegistrado), BadRequest;
        }
      }
      var nuevo := NewUsuario(data, hash, now, newId);
      if DistinctEmails(usuarios) {
        AppendFreshEmailKeepsDistinct(usuarios, nuevo);
      }
      usuarios := usuarios + [nuevo];
      payload := Registrado(MsgRegistrado, newId, data["nombre"], data["email"], data["rol"], |usuarios|);
      status := Created;
    }
  }

  /** The seeded user of `usuarios_mock`. */
  function Seed(hash: string -> string, now: Timestamp, id0: Id): Usuario {
    Usuario(id0, "Juan Pérez", "juan@example.com", hash("12345"), "usuario", now)
  }

  /** The register test functions, each on a fresh copy of the seeded list. */
  method RegisterScenarios(hash: string -> string, now: Timestamp, id0: Id, newId: Id)
  {
    var seed := [Seed(hash, now, id0)];

    var store := new UsuarioList(seed);
    var ana := map["nombre" := "Ana López", "email" := "ana@example.com", "password" := "abc123", "rol" := "admin"];
    var p, s := store.Register(ana, hash, now, newId);
    assert s == Created && p.total == |store.usuarios| == 2;

    store := new UsuarioList(seed);
    var dup := map["nombre" := "Juan Pérez", "email" := "juan@example.com", "password" := "12345", "rol" := "usuario"];
    assert FirstWithEmail(seed, "juan@example.com", 0);
    p, s := store.Register(dup, hash, now, newId);
    assert s == BadRequest && p.RegisterError? && store.usuarios == seed;

    store := new UsuarioList(seed);
    p, s := store.Register(map["email" := "nuevo@example.com"], hash, now, newId);
    assert s == BadRequest && p.RegisterError? && store.usuarios == seed;
  }

  /** The login test functions against the seeded list. */
  method LoginScenarios(hash: string -> string, check: (string, string) -> bool, now: Timestamp, id0: Id)
    requires HashRoundTrip(hash, check)
    requires !check(hash("12345"), "malapass")
  {
    var juan := Seed(hash, now, id0);
    var seed := [juan];

    LoginAfterAppend([], juan, "12345", hash, check);
    var ok := Login(map["email" := "juan@example.com", "password" := "12345"], seed, check);
    assert ok.1 == Ok && ok.0.nombre == "Juan Pérez" && ok.0.rol == "usuario";

    assert FirstWithEmail(seed, "juan@example.com", 0);
    var wrong := Login(map["email" := "juan@example.com", "password" := "malapass"], seed, check);
    assert wrong.1 == Unauthorized && wrong.0 == LoginError(MsgContrasenaIncorrecta);

    var nadie := Login(map["email" := "nadie@example.com", "password" := "123"], seed, check);
    assert nadie.1 == Unauthorized && nadie.0 == LoginError(MsgCorreoNoEncontrado);

    var incompleto := Login(map["email" := "juan@example.com"], seed, check);
    assert incompleto.1 == BadRequest && incompleto.0.LoginError?;
  }

  /** Register a user on an empty list, fail to register the same email
      again, then log in with a wrong and with the right password. */
  method RegisterThenLogin(hash: string -> string, check: (string, string) -> bool, now: Timestamp, id0: Id, id1: Id)
    requires HashRoundTrip(hash, check)
    requires !check(hash("12345"), "wrong")
  {
    var store := new UsuarioList([]);
    var juan := map["nombre" := "Juan", "email" := "juan@x.com", "password" := "12345", "rol" := "user"];
    var p, s := store.Register(juan, hash, now, id0);
    assert s == Created && |store.usuarios| == 1;
    LoginAfterRegister([], juan, hash, check, now, id0);

    assert FirstWithEmail(store.usuarios, "juan@x.com", 0);
    p, s := store.Register(juan["password" := "otra"], hash, now, id1);
    assert s == BadRequest && |store.usuarios| == 1;

    var wrong := Login(map["email" := "juan@x.com", "password" := "wrong"], store.usuarios, check);
    assert wrong.1 == Unauthorized;

    var right := Login(map["email" := "juan@x.com", "password" := "12345"], store.usuarios, check);
    assert right.1 == Ok && right.0.rol == "user";
  }
}

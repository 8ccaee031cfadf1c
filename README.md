# Medical-appointment backend: the in-memory stores, verified

This project models the two in-memory "databases" that stand in for the
real handlers of the appointment-booking backend:

- **Appointment store** (`Citas`, backend/tests/test_logic.py). A list of
  appointment records (`Cita`) that `crear_cita` validates and appends to,
  `editar_cita` patches in place, `eliminar_cita` removes from, and
  `get_citas` returns. The list is the field `citas` of class `CitaList`.
  Each of the three writing operations is a method that changes that field;
  its postcondition gives the new list in terms of the old one and gives the
  returned payload. `get_citas` is a method that only reads the field.
- **User store** (`Usuarios`, backend/tests/test_validation.py). A list of
  users (`Usuario`) that `register_mock` appends to after the
  required-keys check and the duplicate-email scan. This is the method
  `UsuarioList.Register`. `login_mock` reads the list without changing it,
  so it is the pure function `Login`.
- **Shared pieces** (`Common`). An `Option` type. `Or`, the "patch value or
  old value" choice. `RemoveFirst`, which is Python's `list.remove`: it
  drops the first element equal to the argument.

Outside effects are parameters:
- The clock `datetime.now(timezone.utc)` is `now`. Instants are integers.
- `uuid.uuid4()` is `newId`. Where uniqueness of ids is claimed, the fresh
  id is a hypothesis ("`newId` is not already in the list").
- The hashing library is two parameters. `hash` stands for
  `generate_password_hash` and `check` for `check_password_hash`.
- The library's one law is the predicate `HashRoundTrip(hash, check)`:
  every password checks against its own hash. Only the lemmas and
  scenarios that need this law take it as a precondition.

Request bodies are `map<string, string>`. `not data` is `data == map[]`,
and `all(k in data for k in keys)` is `keys <= data.Keys`. Statuses and
messages are the source's own constants (`400`, `401`, `200`, `201`,
"Faltan campos obligatorios", ...). Each source test function is replayed
on the seeded records of `citas_mock` and `usuarios_mock` in a scenario
method: `Citas.Scenarios`, `Usuarios.RegisterScenarios` and
`Usuarios.LoginScenarios`. One further end-to-end scenario,
`Usuarios.RegisterThenLogin`, which no source test has, starts from an
empty user list: it registers a user, fails to register the same email
again, and logs in with a wrong and with the right password.

The model follows what the code does, including these behaviours:
- `crear_cita` rejects only when `fecha_hora < now`. A time equal to `now`
  is accepted, not only strictly future times.
- `crear_cita` rejects only an empty name. A name made only of blanks is
  accepted.
- `editar_cita` can overwrite `id` through the patch. Ids stay unique
  after an edit when the patch leaves `id` out, supplies the edited
  record's own id, or sets an id no record carries (`MergeAtKeepsUnique`).
  Any other id in the patch duplicates an existing one.
- `login_mock` gives "Correo no encontrado" for an unknown email and
  "Contraseña incorrecta" for a wrong password. Both answers are 401.

## Model

| member | source | states |
|---|---|---|
| Common.RemoveFirst | backend/tests/test_logic.py:183 | `list.remove` on an element that is present leaves a list exactly one shorter |
| Common.RemoveFirstMultiset | backend/tests/test_logic.py:183 | `list.remove` takes out exactly one occurrence of the element and keeps every other element |
| Common.RemoveFirstAt | backend/tests/test_logic.py:181-183 | when the element first occurs at index i, `list.remove` removes exactly index i and keeps the order of the rest |
| Citas.IndexOfId | backend/tests/test_logic.py:129-130 | the scan by id finds nothing exactly when no record has the id; otherwise it stops at a record with that id and no earlier record has it |
| Citas.Merge | backend/tests/test_logic.py:131-132 | `cita.update(nuevos_datos)` then the stamp: every field the patch supplies takes the patch value, every other field keeps its value, and `updated_at` is `now` |
| Citas.MergeEmptyPatch | backend/tests/test_logic.py:131-132 | an edit with the empty patch `{}` changes nothing but `updated_at`, which becomes `now` |
| Citas.MergeIgnoresPatchedUpdatedAt | backend/tests/test_logic.py:131-132 | an `updated_at` supplied in the patch has no effect: the clock's value wins |
| Citas.AppendFreshKeepsUnique | backend/tests/test_logic.py:69-78 | appending a record whose id is not in the list keeps ids unique |
| Citas.RemoveAtKeepsUnique | backend/tests/test_logic.py:181-184 | when ids are unique, removing a record keeps them unique and leaves no record with the removed id |
| Citas.MergeAtKeepsUnique | backend/tests/test_logic.py:129-133 | an edit whose patch leaves `id` out, supplies the edited record's own id, or sets an unused id keeps ids unique |
| Citas.CitaList.constructor | backend/tests/test_logic.py:92 | a store starts as a copy of the given list (`citas_mock.copy()`) |
| Citas.CitaList.GetCitas | backend/tests/test_logic.py:28-35 | `get_citas` returns the whole list unmodified |
| Citas.CitaList.CrearCita | backend/tests/test_logic.py:53-79 | empty name or `fecha_hora < now`: error and the list is unchanged. Otherwise exactly one record is appended with the given owner, name and time, state "programada" and both timestamps `now`; earlier records keep their places; `total` is the new length. Creating with a fresh id keeps ids unique |
| Citas.CitaList.EditarCita | backend/tests/test_logic.py:116-134 | absent id: "Cita no encontrada" and the list is unchanged. Present id: only the first record with that id is replaced by its merge with the patch, and it is returned. Length and all other records are unchanged |
| Citas.CitaList.EliminarCita | backend/tests/test_logic.py:171-185 | absent id: error and the list is unchanged. Present id: exactly the first record with that id is removed, the order of the rest is kept, and `total` is the new length, old length minus one. With unique ids, ids stay unique and the deleted id is gone |
| Usuarios.IndexOfEmail | backend/tests/test_validation.py:67 | the `next(...)` lookup finds nothing exactly when no user has the email; otherwise it yields the first user with that email |
| Usuarios.Login | backend/tests/test_validation.py:58-80 | 400 exactly when `data` is empty or lacks `email` or `password`. 401 "Correo no encontrado" when no user has the email. For the first user with the email: 200 with that user's id, name and role when `check(hash, password)` holds, else 401 "Contraseña incorrecta". The status is 400, 401 or 200, the hash is never returned, and the list is only read |
| Usuarios.AppendFreshEmailKeepsDistinct | backend/tests/test_validation.py:33-47 | appending a user whose email nobody has keeps emails pairwise distinct |
| Usuarios.LoginAfterAppend | backend/tests/test_validation.py:67-80 | given the hashing law, a user stored with the hash of a password under a fresh email logs in with that email and password: 200 with its own id, name and role |
| Usuarios.LoginAfterRegister | backend/tests/test_validation.py:38-47 | given the hashing law, the user that a successful `register_mock` appends logs in with the registered email and password: 200 with the new id, name and role |
| Usuarios.UsuarioList.constructor | backend/tests/test_validation.py:93 | a store starts as a copy of the given list (`usuarios_mock.copy()`) |
| Usuarios.UsuarioList.Register | backend/tests/test_validation.py:23-55 | the missing-key check comes first: empty data or a missing `nombre`/`email`/`password`/`rol` gives 400 and the list is unchanged, even if the email is taken. Then an existing user with exactly that email gives 400 and the list is unchanged. Otherwise 201, exactly one user is appended holding `hash(password)` and not the password, and the payload echoes id, name, email, role and `total` = new length = old length + 1, with no password or hash. Distinct emails stay distinct on every path |

## Left out

- Hashing internals: werkzeug's algorithm, and its salt. The salt makes two
  hashes of one password differ. `hash` is a deterministic parameter and
  only the law `check(hash(p), p)` is used. Nothing is assumed about
  `check` on other inputs.
- Time: timezones and `datetime` arithmetic are left out; instants are
  integers. `created_at` and `updated_at` of a new appointment come from
  two separate clock reads in the source. Here both are the single `now`.
- The randomness of `uuid.uuid4()`. The new id is a parameter. Its
  freshness is a hypothesis of the uniqueness postconditions; the
  operations do not require it.
- Dynamically typed dicts. A patch may name only the seven declared
  appointment fields; a key outside them is not modelled. Request-body
  values are strings; `data = None` and non-string values are not
  modelled, nor is a `None` appointment name.
- `str(user_id)` in the payloads. The id is returned as the id itself.
- Aliasing through the shallow `.copy()` in the tests. Records are values
  in a sequence, so an edit of one store does not reach the shared seed
  records.
- The pytest `test_*` functions as such, and the module-level seed lists.
  They appear only as the scenario methods.
- Any HTTP, Flask or database layer. None of it is in these files.
- Python's ValueError from `list.remove` on a missing element. `RemoveFirst`
  requires the element to be present, and `eliminar_cita` only calls it on
  an element it has just found.

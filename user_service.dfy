/**
 * The user-directory client (`userService`): the account DTO mapper, the
 * list, role, delete, create and update calls. Each call is its HTTP status
 * flag and decoded reply; a failed status throws a fixed message.
 */
module UserService {
  import opened Wrappers
  import opened Text
  import opened Records

  /** An account as the backend sends it; role id and name may be `null`. */
  datatype UserDto = UserDto(
    id: int,
    profesorId: int,
    usuarioId: int,
    nombre: string,
    email: string,
    numEmpleado: int,
    rolId: Option<int>,
    rol: Option<string>)

  /** The DTO a user stands for: role id 0 and role name `""` are the `null` of "no role". */
  function ToDto(u: User): UserDto {
    UserDto(u.id, u.profesorId, u.usuarioId, u.nombre, u.email, u.numEmpleado,
      if u.rolId == 0 then None else Some(u.rolId),
      if u.rol == "" then None else Some(u.rol))
  }

  /**
   * `mapDtoToUser`: a null role becomes 0 and `""`, there is never an image,
   * and nothing else is lost.
   */
  function MapDtoToUser(dto: UserDto): (u: User)
    ensures u.imagen == None
    ensures dto.rolId.None? ==> u.rolId == 0
    ensures dto.rol.None? ==> u.rol == ""
    ensures ToDto(u) == dto <==> dto.rolId != Some(0) && dto.rol != Some("")
  {
    User(dto.id, dto.profesorId, dto.usuarioId, dto.nombre, dto.email, dto.numEmpleado,
      dto.rol.GetOr(""), dto.rolId.GetOr(0), None)
  }

  /** A user without an image maps back to itself through its DTO. */
  lemma MapDtoToUserInverse(u: User)
    requires u.imagen == None
    ensures MapDtoToUser(ToDto(u)) == u
  {
  }

  /** `getUsersWithRoles`: every DTO mapped, in order. */
  function GetUsersWithRoles(httpOk: bool, data: seq<UserDto>): (r: Result<seq<User>, string>)
    ensures r.Err? <==> !httpOk
    ensures r.Err? ==> r.error == "Error al obtener usuarios"
    ensures r.Ok? ==> |r.value| == |data| && forall i :: 0 <= i < |data| ==> r.value[i] == MapDtoToUser(data[i])
  {
    if !httpOk then Err("Error al obtener usuarios")
    else Ok(seq(|data|, i requires 0 <= i < |data| => MapDtoToUser(data[i])))
  }

  /** A role of the `rol` table. */
  datatype Role = Role(id: int, nombre: string)

  /** `getRoles`: the roles as sent. */
  function GetRoles(httpOk: bool, data: seq<Role>): (r: Result<seq<Role>, string>)
    ensures r.Err? <==> !httpOk
    ensures r.Err? ==> r.error == "Error al obtener roles"
    ensures r.Ok? ==> r.value == data
  {
    if !httpOk then Err("Error al obtener roles") else Ok(data)
  }

  const UsersPath := "/admin/users"

  /** The path of one account: the collection path, a slash and the id. */
  function UserPath(id: int): (p: string)
    ensures |p| > |UsersPath| + 1 && p[..|UsersPath| + 1] == UsersPath + "/"
  {
    UsersPath + "/" + IntToString(id)
  }

  /** Distinct ids address distinct accounts. */
  lemma UserPathInjective(a: int, b: int)
    requires UserPath(a) == UserPath(b)
    ensures a == b
  {
    var k := |UsersPath| + 1;
    assert IntToString(a) == UserPath(a)[k..] == UserPath(b)[k..] == IntToString(b);
    IntToStringInjective(a, b);
  }

  /** `updateUserRole`: `PATCH` of the role id at the account's `role` path. */
  function UpdateUserRolePath(usuarioId: int): string {
    UserPath(usuarioId) + "/role"
  }

  function UpdateUserRole(httpOk: bool): (r: Outcome)
    ensures r.Done? <==> httpOk
    ensures r.Failed? ==> r.message == "Error al actualizar rol"
  {
    if httpOk then Done else Failed("Error al actualizar rol")
  }

  /** `deleteUser`: `DELETE` at the account's path. */
  function DeleteUser(httpOk: bool): (r: Outcome)
    ensures r.Done? <==> httpOk
    ensures r.Failed? ==> r.message == "Error al eliminar usuario"
  {
    if httpOk then Done else Failed("Error al eliminar usuario")
  }

  /** `createProfesor`: the created account, mapped. */
  function CreateProfesor(httpOk: bool, data: UserDto): (r: Result<User, string>)
    ensures r.Err? <==> !httpOk
    ensures r.Err? ==> r.error == "Error al crear profesor"
    ensures r.Ok? ==> r.value == MapDtoToUser(data)
  {
    if !httpOk then Err("Error al crear profesor") else Ok(MapDtoToUser(data))
  }

  /** `UpdateProfesorInput`. */
  datatype UpdateProfesorInput = UpdateProfesorInput(
    profesorId: int, usuarioId: int, nombreCompleto: string, correo: string, numEmpleado: int, rolId: int)

  /** The JSON body of the update: the input without `profesorId`. */
  datatype ProfesorBody = ProfesorBody(usuarioId: int, nombreCompleto: string, correo: string, numEmpleado: int, rolId: int)

  /** The request `updateProfesor` sends. */
  datatype UpdateRequest = UpdateRequest(path: string, body: ProfesorBody)

  function Rebuild(profesorId: int, body: ProfesorBody): UpdateProfesorInput {
    UpdateProfesorInput(profesorId, body.usuarioId, body.nombreCompleto, body.correo, body.numEmpleado, body.rolId)
  }

  /** `const { profesorId, ...body } = input`: the id goes into the path, the rest into the body. */
  function UpdateProfesorRequest(input: UpdateProfesorInput): (req: UpdateRequest)
    ensures req.path == UserPath(input.profesorId)
    ensures Rebuild(input.profesorId, req.body) == input
  {
    UpdateRequest(UserPath(input.profesorId),
      ProfesorBody(input.usuarioId, input.nombreCompleto, input.correo, input.numEmpleado, input.rolId))
  }

  /** The request determines the input: nothing is dropped by the split. */
  lemma UpdateProfesorRequestInjective(a: UpdateProfesorInput, b: UpdateProfesorInput)
    requires UpdateProfesorRequest(a) == UpdateProfesorRequest(b)
    ensures a == b
  {
    UserPathInjective(a.profesorId, b.profesorId);
    assert Rebuild(a.profesorId, UpdateProfesorRequest(a).body) == Rebuild(b.profesorId, UpdateProfesorRequest(b).body);
  }

  /** `updateProfesor`: the updated account, mapped. */
  function UpdateProfesor(httpOk: bool, data: UserDto): (r: Result<User, string>)
    ensures r.Err? <==> !httpOk
    ensures r.Err? ==> r.error == "Error al actualizar profesor"
    ensures r.Ok? ==> r.value == MapDtoToUser(data)
  {
    if !httpOk then Err("Error al actualizar profesor") else Ok(MapDtoToUser(data))
  }
}

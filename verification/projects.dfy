/** The Proyecto model: identity, descriptive fields, dates as day numbers
    and an optional status drawn from four fixed choices. */
module Projects {
  import opened Wrappers

  type ProjectId = nat

  /** The four status choices of a project. */
  datatype Status = Pendiente | Iniciado | Finalizado | Cancelado

  /** The value stored in the status column. */
  function StatusCode(s: Status): string {
    match s
    case Pendiente => "pendiente"
    case Iniciado => "iniciado"
    case Finalizado => "finalizado"
    case Cancelado => "cancelado"
  }

  /** Reads a stored status code back; `None` exactly for a code that is
      none of the four choices. */
  function ParseStatus(code: string): (r: Option<Status>)
    ensures r.Some? ==> StatusCode(r.value) == code
    ensures r.None? <==> forall s: Status :: StatusCode(s) != code
  {
    if code == "pendiente" then Some(Pendiente)
    else if code == "iniciado" then Some(Iniciado)
    else if code == "finalizado" then Some(Finalizado)
    else if code == "cancelado" then Some(Cancelado)
    else None
  }

  lemma StatusRoundTrip(s: Status)
    ensures ParseStatus(StatusCode(s)) == Some(s)
  {}

  /** A project row. Dates are day numbers and `descripcion` is nullable.
      `status` is nullable and, when present, one of the four choices: the
      choices are enforced by form and model validation, not by saving, so
      this typing describes validated rows; `ParseStatus` reads a raw code. */
  datatype Proyecto = Proyecto(
    id: ProjectId,
    nombreProyecto: string,
    descripcion: Option<string>,
    fechaCreacion: int,
    fechaInicio: int,
    fechaFin: int,
    status: Option<Status>)

  /** A project displays as its name, unchanged. */
  function Str(p: Proyecto): (s: string)
    ensures s == p.nombreProyecto
  {
    p.nombreProyecto
  }

  /** Projects that display alike carry the same name, whatever their other
      fields. */
  lemma StrDeterminedByName(p: Proyecto, q: Proyecto)
    ensures Str(p) == Str(q) <==> p.nombreProyecto == q.nombreProyecto
  {}
}

/** Date validation of the project and sprint forms. Dates are day
    numbers, `today` is passed in, and a field the form could not parse is
    `None`. A present date always counts as given; a sprint length of 0
    counts as not given. */
module DateForms {
  import opened Wrappers

  datatype Field = FechaInicio | FechaFin | DuracionSprint

  datatype DateError =
    | InicioEnPasado       // start date before today
    | FinEnPasado          // end date before today
    | FinAntesDeInicio     // end date before start date
    | SinTiempoParaSprint  // no room for one sprint between the dates

  datatype FieldError = FieldError(field: Field, error: DateError)

  /** The errors reported on one field, in the order they were added. */
  function ErrorsOn(errs: seq<FieldError>, f: Field): (r: seq<DateError>)
    ensures |r| <= |errs|
    decreases |errs|
  {
    if errs == [] then []
    else (if errs[0].field == f then [errs[0].error] else []) + ErrorsOn(errs[1..], f)
  }

  lemma {:induction false} ErrorsOnConcat(a: seq<FieldError>, b: seq<FieldError>, f: Field)
    ensures ErrorsOn(a + b, f) == ErrorsOn(a, f) + ErrorsOn(b, f)
    decreases |a|
  {
    if a == [] {
      assert a + b == b;
    } else {
      var head := if a[0].field == f then [a[0].error] else [];
      assert (a + b)[0] == a[0];
      assert (a + b)[1..] == a[1..] + b;
      assert ErrorsOn(a + b, f) == head + ErrorsOn(a[1..] + b, f);
      ErrorsOnConcat(a[1..], b, f);
      assert ErrorsOn(a, f) == head + ErrorsOn(a[1..], f);
    }
  }

  lemma ErrorsOnConcat4(a: seq<FieldError>, b: seq<FieldError>, c: seq<FieldError>, d: seq<FieldError>)
    ensures forall f :: ErrorsOn(a + b + c + d, f) == ErrorsOn(a, f) + ErrorsOn(b, f) + ErrorsOn(c, f) + ErrorsOn(d, f)
  {
    forall f ensures ErrorsOn(a + b + c + d, f) == ErrorsOn(a, f) + ErrorsOn(b, f) + ErrorsOn(c, f) + ErrorsOn(d, f) {
      ErrorsOnConcat(a + b + c, d, f);
      ErrorsOnConcat(a + b, c, f);
      ErrorsOnConcat(a, b, f);
    }
  }

  /** A date was given and lies before today. */
  predicate InPast(date: Option<int>, today: int) {
    date.Some? && date.value < today
  }

  /** A date was given and is not before today. */
  predicate NotPast(date: Option<int>, today: int) {
    date.Some? && date.value >= today
  }

  /** The project form's validation. The start date is flagged when it is
      in the past. The end date is flagged when it is in the past, or else
      when both dates are otherwise acceptable and the end comes before the
      start. The sprint length is flagged only when both dates are
      acceptable and ordered, a non-zero length was given, and one sprint
      starting on the start date would end after the end date. */
  function ProyectoClean(today: int, inicio: Option<int>, fin: Option<int>, duracion: Option<nat>)
    : (errs: seq<FieldError>)
    ensures ErrorsOn(errs, FechaInicio) == (if InPast(inicio, today) then [InicioEnPasado] else [])
    ensures ErrorsOn(errs, FechaFin) ==
      if InPast(fin, today) then [FinEnPasado]
      else if NotPast(inicio, today) && NotPast(fin, today) && inicio.value > fin.value then [FinAntesDeInicio]
      else []
    ensures ErrorsOn(errs, DuracionSprint) ==
      if NotPast(inicio, today) && NotPast(fin, today) && inicio.value <= fin.value
         && duracion.Some? && duracion.value != 0 && inicio.value + duracion.value > fin.value
      then [SinTiempoParaSprint]
      else []
  {
    var e1 := if inicio.Some? && inicio.value < today then [FieldError(FechaInicio, InicioEnPasado)] else [];
    var inicio1 := if e1 != [] then None else inicio;
    var e2 := if fin.Some? && fin.value < today then [FieldError(FechaFin, FinEnPasado)] else [];
    var fin1 := if e2 != [] then None else fin;
    var misordered := inicio1.Some? && fin1.Some? && inicio1.value > fin1.value;
    var e3 := if misordered then [FieldError(FechaFin, FinAntesDeInicio)] else [];
    var inicio2 := if misordered then None else inicio1;
    var fin2 := if misordered then None else fin1;
    var e4 := if inicio2.Some? && fin2.Some? && duracion.Some? && duracion.value != 0
                 && inicio2.value + duracion.value > fin2.value
              then [FieldError(DuracionSprint, SinTiempoParaSprint)] else [];
    ErrorsOnConcat4(e1, e2, e3, e4);
    e1 + e2 + e3 + e4
  }

  /** A started project's start date is a locked field: the form cleans
      the stored date, not a submitted one. Once that date is before today,
      every save is rejected on a field the user cannot change. */
  lemma LockedPastStartRejected(today: int, s: int, fin: Option<int>, duracion: Option<nat>)
    requires s < today
    ensures ErrorsOn(ProyectoClean(today, Some(s), fin, duracion), FechaInicio) == [InicioEnPasado]
    ensures ProyectoClean(today, Some(s), fin, duracion) != []
  {
  }

  /** The project form's validation with the start date checked against
      today only while the user can still edit it. A locked start date gets
      no error; the end date and the sprint length are checked against it as
      usual. With the start unlocked this is the project form's validation. */
  function ProyectoCleanLocked(today: int, inicio: Option<int>, fin: Option<int>, duracion: Option<nat>,
                               startLocked: bool): (errs: seq<FieldError>)
    ensures !startLocked ==> errs == ProyectoClean(today, inicio, fin, duracion)
    ensures startLocked ==> ErrorsOn(errs, FechaInicio) == []
    ensures startLocked ==> ErrorsOn(errs, FechaFin) ==
                            (if InPast(fin, today) then [FinEnPasado]
                             else if inicio.Some? && NotPast(fin, today) && inicio.value > fin.value then [FinAntesDeInicio]
                             else [])
    ensures startLocked ==> ErrorsOn(errs, DuracionSprint) ==
                            (if inicio.Some? && NotPast(fin, today) && inicio.value <= fin.value
                                && duracion.Some? && duracion.value != 0 && inicio.value + duracion.value > fin.value
                             then [SinTiempoParaSprint]
                             else [])
  {
    if !startLocked then ProyectoClean(today, inicio, fin, duracion)
    else
      var e2 := if fin.Some? && fin.value < today then [FieldError(FechaFin, FinEnPasado)] else [];
      var fin1 := if e2 != [] then None else fin;
      var misordered := inicio.Some? && fin1.Some? && inicio.value > fin1.value;
      var e3 := if misordered then [FieldError(FechaFin, FinAntesDeInicio)] else [];
      var inicio2 := if misordered then None else inicio;
      var fin2 := if misordered then None else fin1;
      var e4 := if inicio2.Some? && fin2.Some? && duracion.Some? && duracion.value != 0
                   && inicio2.value + duracion.value > fin2.value
                then [FieldError(DuracionSprint, SinTiempoParaSprint)] else [];
      ErrorsOnConcat4([], e2, e3, e4);
      assert [] + e2 + e3 + e4 == e2 + e3 + e4;
      e2 + e3 + e4
  }

  /** The sprint form's validation: the project form's date rules without
      the sprint-length rule. */
  function SprintClean(today: int, inicio: Option<int>, fin: Option<int>): (errs: seq<FieldError>)
    ensures ErrorsOn(errs, FechaInicio) == (if InPast(inicio, today) then [InicioEnPasado] else [])
    ensures ErrorsOn(errs, FechaFin) ==
      if InPast(fin, today) then [FinEnPasado]
      else if NotPast(inicio, today) && NotPast(fin, today) && inicio.value > fin.value then [FinAntesDeInicio]
      else []
    ensures ErrorsOn(errs, DuracionSprint) == []
  {
    var e1 := if inicio.Some? && inicio.value < today then [FieldError(FechaInicio, InicioEnPasado)] else [];
    var inicio1 := if e1 != [] then None else inicio;
    var e2 := if fin.Some? && fin.value < today then [FieldError(FechaFin, FinEnPasado)] else [];
    var fin1 := if e2 != [] then None else fin;
    var e3 := if inicio1.Some? && fin1.Some? && inicio1.value > fin1.value
              then [FieldError(FechaFin, FinAntesDeInicio)] else [];
    ErrorsOnConcat4(e1, e2, e3, []);
    assert e1 + e2 + e3 + [] == e1 + e2 + e3;
    e1 + e2 + e3
  }

  /** Every field carries at most one error, so at most three are reported. */
  lemma {:induction false} AtMostOneErrorPerField(today: int, inicio: Option<int>, fin: Option<int>, duracion: Option<nat>)
    ensures forall f :: |ErrorsOn(ProyectoClean(today, inicio, fin, duracion), f)| <= 1
    ensures forall f :: |ErrorsOn(SprintClean(today, inicio, fin), f)| <= 1
  {
    forall f ensures |ErrorsOn(ProyectoClean(today, inicio, fin, duracion), f)| <= 1
                  && |ErrorsOn(SprintClean(today, inicio, fin), f)| <= 1 {
      match f
      case FechaInicio =>
      case FechaFin =>
      case DuracionSprint =>
    }
  }

  /** The project form accepts exactly the inputs whose given dates are not
      in the past, are ordered, and leave room for one sprint of the given
      non-zero length. */
  lemma {:induction false} ProyectoAcceptsIff(today: int, inicio: Option<int>, fin: Option<int>, duracion: Option<nat>)
    ensures ProyectoClean(today, inicio, fin, duracion) == [] <==>
      && !InPast(inicio, today) && !InPast(fin, today)
      && (inicio.Some? && fin.Some? ==> inicio.value <= fin.value)
      && (inicio.Some? && fin.Some? && duracion.Some? && duracion.value != 0 ==>
            inicio.value + duracion.value <= fin.value)
  {
    var errs := ProyectoClean(today, inicio, fin, duracion);
    if errs != [] {
      assert errs[0] in errs;
      assert |ErrorsOn(errs, errs[0].field)| > 0 by {
        assert errs == [errs[0]] + errs[1..];
      }
    }
  }

  /** Start and end on the same day (not in the past) is accepted by both
      forms when no sprint length is given. */
  lemma SameDayAccepted(today: int, day: int)
    requires day >= today
    ensures ProyectoClean(today, Some(day), Some(day), None) == []
    ensures ProyectoClean(today, Some(day), Some(day), Some(0)) == []
    ensures SprintClean(today, Some(day), Some(day)) == []
  {
    ProyectoAcceptsIff(today, Some(day), Some(day), None);
    ProyectoAcceptsIff(today, Some(day), Some(day), Some(0));
    SprintIsProyectoWithoutLength(today, Some(day), Some(day));
  }

  /** The sprint form reports exactly what the project form reports when no
      sprint length (or a zero one) is given. */
  lemma SprintIsProyectoWithoutLength(today: int, inicio: Option<int>, fin: Option<int>)
    ensures SprintClean(today, inicio, fin) == ProyectoClean(today, inicio, fin, None)
    ensures SprintClean(today, inicio, fin) == ProyectoClean(today, inicio, fin, Some(0))
  {}
}

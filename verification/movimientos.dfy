/** Stock movements (components/MovimientosList.tsx): the new-movement form
    and its submission, the type filter, and how a movement's type is shown
    (sign, label, badge). The session, organisation and insert are inputs. */
module Movimientos {
  import opened Wrappers
  import opened Text
  import opened Seqs
  import opened Numbers

  /** A movement as listed; `tipo` is the raw enum value the backend returned. */
  datatype Movimiento = Movimiento(id: string, tipo: string, cantidad: int, motivo: Option<string>)

  const Entrada: string := "ENTRADA"
  const Salida: string := "SALIDA"
  const AjustePositivo: string := "AJUSTE_POSITIVO"
  const AjusteNegativo: string := "AJUSTE_NEGATIVO"
  const Transferencia: string := "TRANSFERENCIA"

  // ---------------------------------------------------------------------------
  // The quantity check (lines 145-148)
  // ---------------------------------------------------------------------------

  const CantidadInvalida: string := "La cantidad debe ser mayor a 0"

  /** As written: `cantidad <= 0` throws; NaN compares false and passes, and
      is then sent as JSON `null`. */
  function CheckCantidadAsWritten(parsed: Option<int>): (r: Result<Option<int>, string>)
    ensures r.Err? <==> parsed.Some? && parsed.value <= 0
    ensures r.Ok? ==> r.value == parsed
  {
    if parsed.Some? && parsed.value <= 0 then Err(CantidadInvalida) else Ok(parsed)
  }

  /** With the evident intent: only a positive whole number passes. */
  function CheckCantidad(parsed: Option<int>): (r: Result<int, string>)
    ensures r.Ok? <==> parsed.Some? && parsed.value > 0
    ensures r.Ok? ==> r.value == parsed.value
    ensures r.Err? ==> r.error == CantidadInvalida
  {
    if parsed.Some? && parsed.value > 0 then Ok(parsed.value) else Err(CantidadInvalida)
  }

  /** As written, a quantity field with no leading digit (a typo, or nothing
      at all) passes the check and reaches the insert without a quantity; the
      corrected check refuses it. */
  lemma NaNQuantityPasses(cantidad: string)
    requires cantidad == [] || (!IsDigit(cantidad[0]) && !IsSpace(cantidad[0]) && cantidad[0] != '-' && cantidad[0] != '+')
    ensures CheckCantidadAsWritten(ParseInt(cantidad)) == Ok(None)
    ensures CheckCantidad(ParseInt(cantidad)).Err?
  {
    assert TrimStart(cantidad) == cantidad;
    NoDigitIsNaN(cantidad);
  }

  /** Both checks agree on every quantity that parses. */
  lemma ChecksAgreeOnNumbers(n: int)
    ensures CheckCantidadAsWritten(Some(n)).Ok? <==> CheckCantidad(Some(n)).Ok?
    ensures CheckCantidad(Some(n)).Ok? ==> CheckCantidadAsWritten(Some(n)) == Ok(Some(CheckCantidad(Some(n)).value))
  {
  }

  // ---------------------------------------------------------------------------
  // handleSubmit (lines 126-182)
  // ---------------------------------------------------------------------------

  datatype MovForm = MovForm(productoId: string, tipo: string, cantidad: string, observaciones: string)

  /** The form after a successful save. */
  const EmptyMovForm: MovForm := MovForm("", Entrada, "", "")

  /** The row inserted into `movimientos_stock`. */
  datatype MovInsert = MovInsert(
    organizacionId: string,
    productoId: string,
    tipo: string,
    cantidad: int,
    motivo: Option<string>,
    creadoPorId: string)

  /** The part of the screen the submission touches. */
  datatype MovScreen = MovScreen(form: MovForm, modalOpen: bool, saving: bool, error: Option<string>)

  const SinSesion: string := "No hay sesión activa"
  const SinOrganizacion: string := "No tienes una organización asignada"

  /** What the backend answers: the signed-in user's id, the organisations
      visible to them (`None` when the query returned no data), and the
      insert's error message, if any. */
  datatype MovBackend = MovBackend(user: Option<string>, orgs: Option<seq<string>>, insertError: Option<string>)

  /** The submission, with the corrected quantity check: the checks run in
      order (session, organisation, quantity) before anything is written; a
      successful insert closes the modal and resets the form; a failure keeps
      the modal and the form and shows the message. Saving is over either way. */
  function SubmitMovement(s: MovScreen, b: MovBackend): (r: (MovScreen, seq<MovInsert>))
    ensures !r.0.saving
    ensures |r.1| <= 1
    ensures b.user.None? ==> r == (s.(saving := false, error := Some(SinSesion)), [])
    ensures b.user.Some? && (b.orgs.None? || b.orgs.value == []) ==> r == (s.(saving := false, error := Some(SinOrganizacion)), [])
    ensures CheckCantidad(ParseInt(s.form.cantidad)).Err? ==> r.1 == []
    ensures r.1 != [] ==>
      && b.user.Some? && b.orgs.Some? && b.orgs.value != []
      && r.1[0] == MovInsert(b.orgs.value[0], s.form.productoId, s.form.tipo,
           CheckCantidad(ParseInt(s.form.cantidad)).value,
           if s.form.observaciones == [] then None else Some(s.form.observaciones),
           b.user.value)
    ensures r.0.error.None? <==> r.1 != [] && b.insertError.None?
    ensures r.0.error.None? ==> !r.0.modalOpen && r.0.form == EmptyMovForm
    ensures r.0.error.Some? ==> r.0.modalOpen == s.modalOpen && r.0.form == s.form
  {
    var started := s.(saving := true, error := None);
    if b.user.None? then (started.(saving := false, error := Some(SinSesion)), [])
    else if b.orgs.None? || b.orgs.value == [] then (started.(saving := false, error := Some(SinOrganizacion)), [])
    else
      match CheckCantidad(ParseInt(s.form.cantidad))
      case Err(m) => (started.(saving := false, error := Some(m)), [])
      case Ok(cantidad) =>
        var ins := MovInsert(b.orgs.value[0], s.form.productoId, s.form.tipo, cantidad,
          if s.form.observaciones == [] then None else Some(s.form.observaciones), b.user.value);
        if b.insertError.Some? then (started.(saving := false, error := Some(b.insertError.value)), [ins])
        else (started.(saving := false, modalOpen := false, form := EmptyMovForm), [ins])
  }

  /** A quantity typed as a positive number is recorded as that number. */
  lemma TypedQuantityIsRecorded(s: MovScreen, b: MovBackend, n: int)
    requires n > 0 && s.form.cantidad == IntToString(n)
    requires b.user.Some? && b.orgs.Some? && b.orgs.value != []
    ensures |SubmitMovement(s, b).1| == 1 && SubmitMovement(s, b).1[0].cantidad == n
  {
    ParseIntOfString(n);
    assert CheckCantidad(ParseInt(s.form.cantidad)) == Ok(n);
  }

  // ---------------------------------------------------------------------------
  // filteredMovimientos (lines 206-208)
  // ---------------------------------------------------------------------------

  const Todos: string := "TODOS"

  function FilteredMovimientos(ms: seq<Movimiento>, filter: string): (r: seq<Movimiento>)
    ensures filter == Todos ==> r == ms
    ensures SubseqOf(r, ms)
    ensures filter != Todos ==> forall i :: 0 <= i < |r| ==> r[i].tipo == filter
    ensures filter != Todos ==> forall i :: 0 <= i < |ms| && ms[i].tipo == filter ==> ms[i] in r
  {
    if filter == Todos then
      SubseqOfSelf(ms);
      ms
    else Filter((m: Movimiento) => m.tipo == filter, ms)
  }

  /** `'TODOS'` keeps everything, and filtering by a type that no movement has
      keeps nothing. */
  lemma FilterByAbsentType(ms: seq<Movimiento>, filter: string)
    requires filter != Todos && forall i :: 0 <= i < |ms| ==> ms[i].tipo != filter
    ensures FilteredMovimientos(ms, filter) == []
  {
  }

  // ---------------------------------------------------------------------------
  // Display (lines 195-204, 240, 310, 315-324)
  // ---------------------------------------------------------------------------

  /** The sign before the quantity. */
  function Sign(tipo: string): (c: char)
    ensures c == '+' <==> tipo == Entrada || tipo == AjustePositivo
    ensures c == '+' || c == '-'
  {
    if tipo == Entrada || tipo == AjustePositivo then '+' else '-'
  }

  /** Outgoing and unknown types alike are shown with a minus sign. */
  lemma SignOfOtherTypes()
    ensures Sign(Salida) == '-' && Sign(AjusteNegativo) == '-' && Sign(Transferencia) == '-'
  {
  }

  /** `tipo.replace('_', ' ')`, and `'Todos'` for the filter button `TODOS`. */
  function TipoLabel(tipo: string): (l: string)
    ensures |l| == |tipo|
  {
    if tipo == Todos then "Todos" else ReplaceFirst(tipo, '_', ' ')
  }

  /** Only the first underscore becomes a space: the labels of the five known
      types, and a later underscore survives. */
  lemma LabelReplacesFirstUnderscore(tipo: string)
    ensures tipo != Todos && '_' in tipo ==>
      var k := IndexOfChar(tipo, '_');
      TipoLabel(tipo)[k] == ' ' && forall i :: 0 <= i < |tipo| && i != k ==> TipoLabel(tipo)[i] == tipo[i]
    ensures tipo != Todos && '_' !in tipo ==> TipoLabel(tipo) == tipo
  {
    ReplaceFirstSpec(tipo, '_', ' ');
  }

  /** A two-word type reads as its two words separated by a space. */
  lemma TwoWordLabel(a: string, b: string)
    requires '_' !in a && a + ['_'] + b != Todos
    ensures TipoLabel(a + ['_'] + b) == a + [' '] + b
  {
    var s := a + ['_'] + b;
    FirstOccurrence(a, '_', b);
    assert s[..|a|] == a && s[|a| + 1..] == b;
  }

  /** The first `c` of `a + [c] + b` is the one after `a` when `a` holds none. */
  lemma FirstOccurrence(a: string, c: char, b: string)
    requires c !in a
    ensures IndexOfChar(a + [c] + b, c) == |a|
  {
    assert (a + [c] + b)[|a|] == c;
  }

  datatype Badge = Green | Red | Blue | Orange | Purple | Gray

  /** `styles[tipo] || 'bg-gray-100 …'`: five known types, grey for the rest. */
  function TipoBadge(tipo: string): (b: Badge)
    ensures b == Gray <==> tipo !in {Entrada, Salida, AjustePositivo, AjusteNegativo, Transferencia}
  {
    if tipo == Entrada then Green
    else if tipo == Salida then Red
    else if tipo == AjustePositivo then Blue
    else if tipo == AjusteNegativo then Orange
    else if tipo == Transferencia then Purple
    else Gray
  }

  /** The five known types get five different badges. */
  lemma KnownBadgesDistinct(a: string, b: string)
    requires a in {Entrada, Salida, AjustePositivo, AjusteNegativo, Transferencia}
    requires b in {Entrada, Salida, AjustePositivo, AjusteNegativo, Transferencia}
    ensures TipoBadge(a) == TipoBadge(b) <==> a == b
  {
  }

  /** `mov.motivo || '-'`, on `Text.OrElse` like the other `||` defaults; a
      member of its own because the default is this screen's. */
  function MotivoText(motivo: Option<string>): (t: string)
    ensures t != []
    ensures motivo.Some? && motivo.value != [] ==> t == motivo.value
    ensures motivo.None? || motivo.value == [] ==> t == "-"
  {
    OrElse(motivo.GetOr([]), "-")
  }

  /** The dash is shown exactly when there is no reason, or the reason is a
      dash itself: a recorded reason is never hidden. */
  lemma DashOnlyForMissingReason(motivo: Option<string>)
    ensures MotivoText(motivo) == "-" <==> motivo.None? || motivo.value == [] || motivo.value == "-"
    ensures motivo.Some? && motivo.value != [] ==> MotivoText(motivo) == motivo.value
  {
  }
}

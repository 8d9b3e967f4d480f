/** The onboarding wizard (components/OnboardingWizard.tsx) and the shell's
    completion callback (App.tsx): the user picks a business template, confirms
    it, and completion writes the template's configuration and suggested
    categories for the organisation. The two tables written to are an
    abstract store; their failures are inputs. */
module Onboarding {
  import opened Wrappers
  import opened Text
  import opened Templates
  import Gate

  // ---------------------------------------------------------------------------
  // Steps and selection (lines 12-19, 90, 111, 223-224)
  // ---------------------------------------------------------------------------

  /** The wizard's state. `selected` is `None` while it still holds its initial
      value `'RETAIL_GENERAL'`, which is no key of the template table. */
  datatype Wizard = Wizard(step: nat, selected: Option<TemplateId>, loading: bool, error: Option<string>)

  const InitialWizard: Wizard := Wizard(1, None, false, None)

  /** The template the confirmation step shows (`BUSINESS_TEMPLATES[selectedTemplate]`),
      undefined while nothing has been picked. */
  function CurrentTemplate(w: Wizard): (t: Option<Template>)
    ensures t.Some? <==> w.selected.Some?
    ensures t.Some? ==> t.value.id == w.selected.value.Key()
  {
    if w.selected.Some? then Some(BusinessTemplate(w.selected.value)) else None
  }

  /** Clicking a template card. */
  function Select(w: Wizard, k: TemplateId): (v: Wizard)
    ensures CurrentTemplate(v) == Some(BusinessTemplate(k))
    ensures v.step == w.step && v.loading == w.loading && v.error == w.error
  {
    w.(selected := Some(k))
  }

  /** "Continuar", as written: it moves to the confirmation step whatever is selected. */
  function ContinueAsWritten(w: Wizard): (v: Wizard)
    ensures v.step == 2 && v.selected == w.selected
  {
    w.(step := 2)
  }

  /** "Continuar" with the evident intent: it moves on only once a template
      has been picked. */
  function Continue(w: Wizard): (v: Wizard)
    ensures w.selected.Some? ==> v.step == 2 && v.selected == w.selected
    ensures w.selected.None? ==> v == w
  {
    if w.selected.Some? then w.(step := 2) else w
  }

  /** "Atrás", disabled while saving. */
  function Back(w: Wizard): (v: Wizard)
    ensures w.loading ==> v == w
    ensures !w.loading ==> v.step == 1 && v.selected == w.selected && v.error == w.error
  {
    if w.loading then w else w.(step := 1)
  }

  datatype WizardEvent = SelectEvent(k: TemplateId) | ContinueEvent | BackEvent

  function StepAsWritten(w: Wizard, e: WizardEvent): Wizard {
    match e
    case SelectEvent(k) => Select(w, k)
    case ContinueEvent => ContinueAsWritten(w)
    case BackEvent => Back(w)
  }

  function Step(w: Wizard, e: WizardEvent): Wizard {
    match e
    case SelectEvent(k) => Select(w, k)
    case ContinueEvent => Continue(w)
    case BackEvent => Back(w)
  }

  function RunAsWritten(w: Wizard, es: seq<WizardEvent>): Wizard
    decreases |es|
  {
    if es == [] then w else RunAsWritten(StepAsWritten(w, es[0]), es[1..])
  }

  function Run(w: Wizard, es: seq<WizardEvent>): Wizard
    decreases |es|
  {
    if es == [] then w else Run(Step(w, es[0]), es[1..])
  }

  /** The confirmation step can be drawn: when it shows, a template is selected,
      and the wizard is on one of its two steps. */
  predicate Confirmable(w: Wizard) {
    (w.step == 1 || w.step == 2) && (w.step == 2 ==> w.selected.Some?)
  }

  /** As written, pressing "Continuar" straight away reaches the confirmation
      step with no template, whose first line reads a field of `undefined`. */
  lemma ContinueWithoutTemplate()
    ensures RunAsWritten(InitialWizard, [ContinueEvent]).step == 2
    ensures CurrentTemplate(RunAsWritten(InitialWizard, [ContinueEvent])).None?
    ensures !Confirmable(RunAsWritten(InitialWizard, [ContinueEvent]))
  {
  }

  /** With the corrected step, every sequence of clicks from the start keeps
      the confirmation step drawable; in particular it starts at step 1. */
  lemma {:induction false} RunKeepsConfirmable(w: Wizard, es: seq<WizardEvent>)
    requires Confirmable(w)
    ensures Confirmable(Run(w, es))
    decreases |es|
  {
    if es != [] {
      RunKeepsConfirmable(Step(w, es[0]), es[1..]);
    }
  }

  /** Going forward then back returns to the template step with the choice kept. */
  lemma ContinueThenBack(w: Wizard)
    requires !w.loading && w.selected.Some?
    ensures Back(Continue(w)).step == 1 && Back(Continue(w)).selected == w.selected
    ensures Continue(Back(Continue(w))) == Continue(w)
  {
  }

  // ---------------------------------------------------------------------------
  // handleComplete (lines 21-57)
  // ---------------------------------------------------------------------------

  /** A `categorias` row. */
  datatype Categoria = Categoria(organizacionId: string, nombre: string)

  /** The two tables completion writes: configuration rows by organisation id,
      and categories. */
  datatype ConfigDb = ConfigDb(configs: map<string, Configuracion>, categorias: seq<Categoria>)

  /** What the backend reports: the configuration update's error message, if
      any, and whether the category insert failed. */
  datatype CompleteFaults = CompleteFaults(update: Option<string>, categoriasFail: bool)

  /** What completion leaves: the wizard, the tables, and how many times the
      `onComplete` callback ran. */
  datatype Completion = Completion(wizard: Wizard, db: ConfigDb, onCompleteCalls: nat)

  const ErrorGuardar: string := "Error al guardar configuración"

  /** The message of the TypeError raised by reading `.configuracion` of the
      undefined template. */
  const UndefinedTemplate: string := "Cannot read properties of undefined (reading 'configuracion')"

  /** `categorias_sugeridas.map(nombre => ({ organizacion_id, nombre }))`. */
  function CategoryRows(orgId: string, names: seq<string>): (rows: seq<Categoria>)
    ensures |rows| == |names|
    ensures forall i :: 0 <= i < |rows| ==> rows[i].organizacionId == orgId && rows[i].nombre == names[i]
  {
    if names == [] then [] else [Categoria(orgId, names[0])] + CategoryRows(orgId, names[1..])
  }

  /** `.update(configuracion).eq('organizacion_id', orgId)`: replaces the row if
      there is one; matching no row is not an error. */
  function UpdateConfig(configs: map<string, Configuracion>, orgId: string, c: Configuracion): (m: map<string, Configuracion>)
    ensures m.Keys == configs.Keys
    ensures orgId in m ==> m[orgId] == c
    ensures forall id :: id in configs && id != orgId ==> m[id] == configs[id]
  {
    if orgId in configs then configs[orgId := c] else configs
  }

  /** The click on "Completar Configuración" from state `w`: a failed configuration
      update stops there and shows the error; otherwise the categories are
      inserted (a failure there is only logged) and `onComplete` runs. Loading
      is off again at the end on both paths. */
  function Complete(w: Wizard, orgId: string, db: ConfigDb, f: CompleteFaults): (c: Completion)
    ensures !c.wizard.loading && c.wizard.step == w.step && c.wizard.selected == w.selected
    ensures c.onCompleteCalls == (if w.selected.Some? && f.update.None? then 1 else 0)
    ensures c.onCompleteCalls == 1 ==> c.wizard.error.None?
    ensures c.onCompleteCalls == 0 ==> c.db == db && c.wizard.error.Some?
    ensures w.selected.None? ==> c.wizard.error == Some(UndefinedTemplate)
    ensures w.selected.Some? && f.update.Some? ==> c.wizard.error == Some(OrElse(f.update.value, ErrorGuardar))
    ensures c.onCompleteCalls == 1 ==>
      var t := BusinessTemplate(w.selected.value);
      && c.db.configs == UpdateConfig(db.configs, orgId, t.configuracion)
      && c.db.categorias == db.categorias + (if f.categoriasFail then [] else CategoryRows(orgId, t.categoriasSugeridas))
  {
    var started := w.(loading := true, error := None);
    if started.selected.None? then
      Completion(started.(loading := false, error := Some(UndefinedTemplate)), db, 0)
    else
      var t := BusinessTemplate(started.selected.value);
      if f.update.Some? then
        Completion(started.(loading := false, error := Some(OrElse(f.update.value, ErrorGuardar))), db, 0)
      else
        var configs := UpdateConfig(db.configs, orgId, t.configuracion);
        var categorias :=
          if t.categoriasSugeridas != [] && !f.categoriasFail then db.categorias + CategoryRows(orgId, t.categoriasSugeridas)
          else db.categorias;
        Completion(started.(loading := false), ConfigDb(configs, categorias), 1)
  }

  /** Only the chosen organisation's configuration changes, and every category
      inserted belongs to it and is one of the template's suggestions, in order. */
  lemma CompleteTouchesOnlyThisOrganization(w: Wizard, orgId: string, db: ConfigDb, f: CompleteFaults)
    ensures var c := Complete(w, orgId, db, f);
      && c.db.configs.Keys == db.configs.Keys
      && (forall id :: id in db.configs && id != orgId ==> c.db.configs[id] == db.configs[id])
      && |db.categorias| <= |c.db.categorias|
      && c.db.categorias[..|db.categorias|] == db.categorias
      && (forall i :: |db.categorias| <= i < |c.db.categorias| ==>
            c.db.categorias[i].organizacionId == orgId
            && c.db.categorias[i].nombre == BusinessTemplate(w.selected.value).categoriasSugeridas[i - |db.categorias|])
  {
  }

  /** The template with no suggestions, or a failing category insert, adds no category. */
  lemma NoCategoriesWithoutSuggestions(w: Wizard, orgId: string, db: ConfigDb, f: CompleteFaults)
    requires w.selected == Some(Otro) || f.categoriasFail
    ensures Complete(w, orgId, db, f).db.categorias == db.categorias
  {
  }

  // ---------------------------------------------------------------------------
  // Back in the shell: handleOnboardingComplete (App.tsx:145-150)
  // ---------------------------------------------------------------------------

  /** After a completed onboarding the configuration row no longer holds the
      sentinel, so the next status check of an approved organisation does not
      send it back to onboarding; meanwhile the callback shows the pending
      screen rather than onboarding. */
  lemma CompletionClearsTrigger(w: Wizard, orgId: string, db: ConfigDb, f: CompleteFaults, g: Gate.GateState, l: Gate.Lookup)
    requires Complete(w, orgId, db, f).onCompleteCalls == 1 && orgId in db.configs
    requires l.thrown == Gate.NoThrow && l.user.Some?
    requires Gate.JoinedOrgs(l.members) != [] && Gate.EffectiveEstado(Gate.JoinedOrgs(l.members)[0].estado) == "APROBADA"
    requires l.config == Some(Gate.ConfigRow(Some(Complete(w, orgId, db, f).db.configs[orgId].tipoNegocio)))
    ensures !Gate.ConfigNeedsOnboarding(l.config)
    ensures !Gate.CheckOnboarding(g, l).needsOnboarding && !Gate.CheckOnboarding(g, l).isPending
    ensures Gate.OnboardingComplete(g).isPending && !Gate.OnboardingComplete(g).needsOnboarding
  {
    NoTemplateIsRetailGeneral(w.selected.value);
    Gate.ApprovedRoutesOnConfig(g, l);
  }
}

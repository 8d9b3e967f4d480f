/** The business templates (constants/businessTemplates.ts): six fixed
    configurations an organisation can start from, each with the feature
    flags, units of measure and suggested categories the onboarding wizard
    writes for it. */
module Templates {
  import opened Wrappers
  import Gate

  /** The keys of `BUSINESS_TEMPLATES`. */
  datatype TemplateId = Panaderia | Ferreteria | TiendaVinilos | Abarrotes | Restaurante | Otro
  {
    /** The key as written in the table. */
    function Key(): string {
      match this
      case Panaderia => "PANADERIA"
      case Ferreteria => "FERRETERIA"
      case TiendaVinilos => "TIENDA_VINILOS"
      case Abarrotes => "ABARROTES"
      case Restaurante => "RESTAURANTE"
      case Otro => "OTRO"
    }
  }

  /** The `configuracion` object a template writes to the organisation's
      configuration row. */
  datatype Configuracion = Configuracion(
    tipoNegocio: string,
    usaVencimientos: bool,
    usaProduccion: bool,
    usaLotes: bool,
    usaMermas: bool,
    usaTerceros: bool,
    usaAlmacenes: bool,
    unidadesMedida: seq<string>,
    mostrarValorInventario: bool,
    requiereAprobacionMovimientos: bool)

  datatype Template = Template(
    id: string,
    nombre: string,
    descripcion: string,
    icon: string,
    configuracion: Configuracion,
    categoriasSugeridas: seq<string>)

  /** The configuration every template shares except for its type, the four
      flags that vary and its units: inventory value shown, shrinkage tracked,
      movements not subject to approval. */
  function Config(tipo: string, vencimientos: bool, produccion: bool, lotes: bool, terceros: bool, almacenes: bool, unidades: seq<string>): Configuracion {
    Configuracion(tipo, vencimientos, produccion, lotes, true, terceros, almacenes, unidades, true, false)
  }

  /** `BUSINESS_TEMPLATES[k]`; each entry spells its own key as its `id` and
      its `tipoNegocio`. */
  function BusinessTemplate(k: TemplateId): (t: Template)
    ensures t.id == k.Key() && t.configuracion.tipoNegocio == k.Key()
    ensures t.configuracion.usaMermas && t.configuracion.mostrarValorInventario
    ensures !t.configuracion.requiereAprobacionMovimientos
    ensures t.configuracion.unidadesMedida != [] && t.configuracion.unidadesMedida[0] == "UNIDADES"
    ensures t.categoriasSugeridas == [] <==> k == Otro
  {
    match k
    case Panaderia => PanaderiaTemplate
    case Ferreteria => FerreteriaTemplate
    case TiendaVinilos => TiendaVinilosTemplate
    case Abarrotes => AbarrotesTemplate
    case Restaurante => RestauranteTemplate
    case Otro => OtroTemplate
  }

  const PanaderiaTemplate: Template :=
    Template(Panaderia.Key(), "🍞 Panadería",
      "Para negocios de panadería y pastelería con producción propia", "🍞",
      Config(Panaderia.Key(), true, true, true, false, false, ["UNIDADES", "KG", "DOCENAS"]),
      ["Pan", "Pasteles", "Galletas", "Bollería", "Insumos", "Materias Primas"])

  const FerreteriaTemplate: Template :=
    Template(Ferreteria.Key(), "🔧 Ferretería",
      "Para ferreterías y tiendas de construcción", "🔧",
      Config(Ferreteria.Key(), false, false, false, true, true, ["UNIDADES", "CAJAS", "METROS", "LITROS"]),
      ["Herramientas", "Tornillería", "Pintura", "Electricidad", "Plomería", "Construcción"])

  const TiendaVinilosTemplate: Template :=
    Template(TiendaVinilos.Key(), "🎵 Tienda de Vinilos",
      "Para tiendas de discos y vinilos", "🎵",
      Config(TiendaVinilos.Key(), false, false, false, true, false, ["UNIDADES"]),
      ["Rock", "Pop", "Jazz", "Clásica", "Electrónica", "Hip Hop", "Accesorios"])

  const AbarrotesTemplate: Template :=
    Template(Abarrotes.Key(), "🛒 Tienda de Abarrotes",
      "Para tiendas de abarrotes y minimarkets", "🛒",
      Config(Abarrotes.Key(), true, false, false, false, false, ["UNIDADES", "KG", "LITROS"]),
      ["Bebidas", "Snacks", "Lácteos", "Enlatados", "Limpieza", "Higiene Personal"])

  const RestauranteTemplate: Template :=
    Template(Restaurante.Key(), "\U{1F37D}\U{FE0F} Restaurante",
      "Para restaurantes y servicios de comida", "\U{1F37D}\U{FE0F}",
      Config(Restaurante.Key(), true, true, false, true, false, ["UNIDADES", "KG", "LITROS"]),
      ["Carnes", "Verduras", "Lácteos", "Bebidas", "Condimentos", "Desechables"])

  const OtroTemplate: Template :=
    Template(Otro.Key(), "📦 Otro",
      "Configuración personalizada", "📦",
      Config(Otro.Key(), false, false, false, false, false, ["UNIDADES"]),
      [])

  /** The table's keys in declaration order. */
  const Order: seq<TemplateId> := [Panaderia, Ferreteria, TiendaVinilos, Abarrotes, Restaurante, Otro]

  /** `getAllTemplates()`: `Object.values(BUSINESS_TEMPLATES)`, in declaration order. */
  function AllTemplates(): (ts: seq<Template>)
    ensures |ts| == |Order| == 6
    ensures forall i :: 0 <= i < |ts| ==> ts[i] == BusinessTemplate(Order[i])
  {
    seq(|Order|, i requires 0 <= i < |Order| => BusinessTemplate(Order[i]))
  }

  /** A key string names at most one template. */
  lemma KeyInjective(k1: TemplateId, k2: TemplateId)
    ensures k1.Key() == k2.Key() <==> k1 == k2
  {
    ParseKeyRoundTrip(k1, k2.Key());
    ParseKeyRoundTrip(k2, k1.Key());
  }

  /** The template key a string denotes, if any. */
  function ParseTemplateId(s: string): (k: Option<TemplateId>)
    ensures k.Some? ==> k.value.Key() == s
  {
    if s == "PANADERIA" then Some(Panaderia)
    else if s == "FERRETERIA" then Some(Ferreteria)
    else if s == "TIENDA_VINILOS" then Some(TiendaVinilos)
    else if s == "ABARROTES" then Some(Abarrotes)
    else if s == "RESTAURANTE" then Some(Restaurante)
    else if s == "OTRO" then Some(Otro)
    else None
  }

  /** Parsing inverts `Key`, so a string that is no template's key parses to nothing. */
  lemma ParseKeyRoundTrip(k: TemplateId, s: string)
    ensures ParseTemplateId(k.Key()) == Some(k)
    ensures ParseTemplateId(s).None? ==> s != k.Key()
  {
  }

  /** `getTemplateById(id)`: the template stored under `id`, absent (`undefined`)
      for any string that is no template key. Keys inherited from
      `Object.prototype`, such as `constructor`, are not modelled: JavaScript
      would return the inherited value for them. */
  function GetTemplateById(id: string): (t: Option<Template>)
    ensures t.Some? ==> t.value.id == id
    ensures forall k: TemplateId :: k.Key() == id ==> t == Some(BusinessTemplate(k))
  {
    var k := ParseTemplateId(id);
    KeyOfParse(id);
    if k.Some? then Some(BusinessTemplate(k.value)) else None
  }

  /** Every key equal to `id` is the one `id` parses to. */
  lemma KeyOfParse(id: string)
    ensures forall k: TemplateId :: k.Key() == id ==> ParseTemplateId(id) == Some(k)
  {
    forall k: TemplateId | k.Key() == id
      ensures ParseTemplateId(id) == Some(k)
    {
      ParseKeyRoundTrip(k, id);
    }
  }

  /** Where a key sits in `Order`. */
  function Position(k: TemplateId): (i: nat)
    ensures i < |Order| && Order[i] == k
    ensures forall j :: 0 <= j < |Order| && Order[j] == k ==> j == i
  {
    match k
    case Panaderia => 0
    case Ferreteria => 1
    case TiendaVinilos => 2
    case Abarrotes => 3
    case Restaurante => 4
    case Otro => 5
  }

  /** Every template is listed by `getAllTemplates`, at the position of its key,
      no key is listed twice, and a lookup by the template's id finds it. */
  lemma AllTemplatesListEachOnce(k: TemplateId)
    ensures AllTemplates()[Position(k)] == BusinessTemplate(k)
    ensures forall i :: 0 <= i < |Order| && Order[i] == k ==> i == Position(k)
    ensures GetTemplateById(BusinessTemplate(k).id) == Some(BusinessTemplate(k))
  {
    var i := Position(k);
    assert AllTemplates()[i] == BusinessTemplate(Order[i]);
    assert BusinessTemplate(k).id == k.Key();
  }

  /** The ids `getAllTemplates` yields, in order. */
  lemma AllTemplatesOrder()
    ensures |AllTemplates()| == 6
    ensures AllTemplates()[0].id == "PANADERIA" && AllTemplates()[1].id == "FERRETERIA"
    ensures AllTemplates()[2].id == "TIENDA_VINILOS" && AllTemplates()[3].id == "ABARROTES"
    ensures AllTemplates()[4].id == "RESTAURANTE" && AllTemplates()[5].id == "OTRO"
  {
  }

  /** No template carries the not-onboarded sentinel, and the wizard's initial
      selection `'RETAIL_GENERAL'` is no key of the table. */
  lemma NoTemplateIsRetailGeneral(k: TemplateId)
    ensures BusinessTemplate(k).configuracion.tipoNegocio != Gate.RetailGeneral
    ensures GetTemplateById(Gate.RetailGeneral).None?
  {
    assert ParseTemplateId(Gate.RetailGeneral).None?;
    ParseKeyRoundTrip(k, Gate.RetailGeneral);
  }

  /** The bakery template in full: expiry dates, production, batches and
      shrinkage on; third parties and warehouses off; six categories. */
  lemma PanaderiaDetails()
    ensures var c := BusinessTemplate(Panaderia).configuracion;
      c.usaVencimientos && c.usaProduccion && c.usaLotes && c.usaMermas
      && !c.usaTerceros && !c.usaAlmacenes
      && c.unidadesMedida == ["UNIDADES", "KG", "DOCENAS"]
    ensures BusinessTemplate(Panaderia).categoriasSugeridas
      == ["Pan", "Pasteles", "Galletas", "Bollería", "Insumos", "Materias Primas"]
    ensures |BusinessTemplate(Panaderia).categoriasSugeridas| == 6
  {
  }
}

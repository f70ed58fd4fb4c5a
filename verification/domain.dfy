/**
  The records the application stores: a billed service, a predefined service template
  and a client's prepaid plan, with the "without id" shapes the forms hand to the stores.
*/
module Domain {

  /** The two payment methods; their stored literals are "dinheiro" and "pagamento online". */
  datatype PaymentMethod = Dinheiro | PagamentoOnline

  function MethodLiteral(m: PaymentMethod): (s: string)
    ensures s == "dinheiro" || s == "pagamento online"
  {
    match m
    case Dinheiro => "dinheiro"
    case PagamentoOnline => "pagamento online"
  }

  /** One billed service; `date` is the stored "yyyy-MM-dd" string. */
  datatype Service = Service(id: string, name: string, price: real, paymentMethod: PaymentMethod, date: string)

  /** A service before the store assigns it an id. */
  datatype ServiceData = ServiceData(name: string, price: real, paymentMethod: PaymentMethod, date: string)

  /** The record `{ id, ...data }`. */
  function WithId(id: string, d: ServiceData): (s: Service)
    ensures s.id == id && DataOf(s) == d
  {
    Service(id, d.name, d.price, d.paymentMethod, d.date)
  }

  function DataOf(s: Service): ServiceData
  {
    ServiceData(s.name, s.price, s.paymentMethod, s.date)
  }

  /** A reusable template offered by the add-service form. */
  datatype PredefinedService = PredefinedService(name: string, price: real)

  /** The catalogue the application ships with. */
  const DefaultCatalogue: seq<PredefinedService> := [
    PredefinedService("Corte padrão", 30.0),
    PredefinedService("Corte + barba", 50.0),
    PredefinedService("Sobrancelha", 10.0),
    PredefinedService("Corte navalhado", 35.0),
    PredefinedService("Corte maquina", 20.0)
  ]

  /** A client's prepaid bundle of cuts. */
  datatype ClientPlan = ClientPlan(id: string, name: string, price: real, totalCuts: int, remainingCuts: int)

  /** The plan form's output: a plan without id and without remainingCuts. */
  datatype PlanData = PlanData(name: string, price: real, totalCuts: int)

  /** A plan without its id, as `updatePlan` receives it. */
  datatype PlanFields = PlanFields(name: string, price: real, totalCuts: int, remainingCuts: int)

  function PlanWithId(id: string, f: PlanFields): (p: ClientPlan)
    ensures p.id == id && FieldsOf(p) == f
  {
    ClientPlan(id, f.name, f.price, f.totalCuts, f.remainingCuts)
  }

  function FieldsOf(p: ClientPlan): PlanFields
  {
    PlanFields(p.name, p.price, p.totalCuts, p.remainingCuts)
  }

  /** What `localStorage.getItem` followed by `JSON.parse` gives: no entry (or an empty one),
      text that does not parse, or a decoded list. */
  datatype StorageEntry<T> = Absent | Unparseable | Entry(value: T)

  /** The credit invariant the plan store is meant to keep. */
  predicate CutsInRange(p: ClientPlan)
  {
    0 <= p.remainingCuts <= p.totalCuts
  }
}

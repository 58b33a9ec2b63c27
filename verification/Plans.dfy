/** Plan actions and options as the planning, optimising and executing services share them. */
module Plans {

  datatype SplitPart = SplitPart(qty: real, deliveryDate: int)

  /** Schedule lines are numbered; the source spells the numbers as decimal strings. */
  datatype Action =
    | CreateSto(fromPlant: string, toPlant: string, material: string, qty: real, deliveryDate: int)
    | ChangePoDate(poNumber: string, poItem: string, scheduleLine: nat, newDate: int)
    | SplitPoScheduleLine(poNumber: string, poItem: string, scheduleLine: nat, parts: seq<SplitPart>)
    | BookAirFreight(supplierId: string, poNumber: string, poItem: string, qty: real, arrival: int)
    | CreatePoAlternate(supplierId: string, material: string, plant: string, qty: real, deliveryDate: int)

  datatype PlanOption = PlanOption(id: string, actions: seq<Action>, arrival: int, sourceRefs: seq<string>)
}

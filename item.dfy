/** An Item is one purchase or deposit: a name, a day of the month and a
 *  signed amount (positive = inflow, negative = outflow). The source's
 *  constructor and its three getters are the datatype constructor and its
 *  destructors `name`, `date` and `amount`; a datatype value cannot be
 *  changed after construction. */
module Items {

  datatype Item = Item(name: string, date: int, amount: real)

  /** Sum of the amounts of `items`, accumulated left to right. */
  function ItemsTotal(items: seq<Item>): real
  {
    if items == [] then 0.0 else ItemsTotal(items[..|items| - 1]) + items[|items| - 1].amount
  }

}

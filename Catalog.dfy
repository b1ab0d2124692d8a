/**
 * The catalog records a quote is assembled from, as the selection store
 * declares them. Costs are exact non-negative integers; the optional image
 * fields are display metadata and are not modelled.
 */
module Catalog {
  datatype Property = Property(id: string, name: string, description: string, cost: nat, location: string)

  datatype Item = Item(id: string, name: string, cost: nat, skill: string)

  datatype Builder = Builder(id: string, name: string, cost: nat, experience: string, estimatedTime: string, skill: string)
}

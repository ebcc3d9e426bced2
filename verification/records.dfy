/** The record shapes the dashboard receives from the inventory and transfer
    endpoints, and the per-store rollup it derives from them. */
module Records {

  /** One product batch at one store, with the engine's derived columns. */
  datatype InventoryItem = InventoryItem(
    id: nat,
    productName: string,
    storeId: string,
    stock: int,
    shelfLifeDays: int,
    expiryDate: string,
    daysToExpiry: int,
    predictedDemand: real,
    finalPrice: real,
    mrp: real,
    discount: real,
    avgDailySales: real,
    expectedSales: real)

  /** One suggested movement of stock between two stores. */
  datatype Transfer = Transfer(
    id: nat,
    productId: string,
    fromStore: string,
    toStore: string,
    quantity: int,
    distanceKm: real,
    expiryDate: string,
    daysToExpiry: int,
    remainingRatio: real)

  /** The rounded per-store figures shown by the store performance chart. */
  datatype StoreSummary = StoreSummary(id: string, efficiency: int, wasteRisk: Level, revenue: int)

  /** The three-way grading the pages use for demand, priority and risk. */
  datatype Level = Low | Medium | High
}

/** The records that flow through the aggregation path. */
module Models {

  /** One normalised result row (AggregatedItemModel). */
  datatype AggregatedItem = AggregatedItem(date: string, category: string, source: string)

  /** One raw record as the service deserialises it (DataProviderModel.NewsResponse). */
  datatype NewsResponse = NewsResponse(date: string, category: string, source: string)

  /** The provider names (ApiNames). Their values are assumed; only their
      being different matters to the model. */
  const News: string := "News"
  const Weather: string := "Weather"

  /** The category every normalised item carries: normalisation never assigns
      one, so the item keeps its default. */
  const UnsetCategory: string := ""

  predicate KnownSource(source: string)
  {
    source == News || source == Weather
  }
}

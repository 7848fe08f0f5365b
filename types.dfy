/** The records and enumerations the application passes around, and its table of appliances. */
module Types {
  import opened Wrappers

  /** An appliance the user can pick; its icon component is not modelled. */
  datatype Appliance = Appliance(id: string, name: string)

  /** A repair business as the service returns it; `phone` and `mapsUrl` may be absent. */
  datatype Technician = Technician(name: string, address: string, phone: Option<string>, mapsUrl: Option<string>)

  /** The six screens of the wizard, in their declaration order. */
  datatype AppStep = SelectAppliance | DescribeIssue | Diagnosing | ShowDiagnosis | FindingTechnician | ShowTechnicians

  /** How the technician list is ordered: as returned (`'default'`) or by name (`'name_az'`). */
  datatype SortOption = Default | NameAz

  /** The appliances offered on the first screen. */
  const Appliances: seq<Appliance> := [
    Appliance("refrigerator", "Refrigerator"),
    Appliance("washer", "Washing Machine"),
    Appliance("oven", "Oven / Stove"),
    Appliance("ac", "Air Conditioner"),
    Appliance("tv", "Television"),
    Appliance("microwave", "Microwave")
  ]
}

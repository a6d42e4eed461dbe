/** The six pollutant kinds the AQI computation knows, and the column names
    by which the program refers to them. */
module Pollutants {
  import opened Options

  datatype Pollutant = PM25 | PM10 | NO2 | SO2 | CO | Ozone

  /** The column name of a pollutant, exactly as the program spells it. */
  function Name(p: Pollutant): string
  {
    match p
    case PM25 => "PM2.5"
    case PM10 => "PM10"
    case NO2 => "NO2"
    case SO2 => "SO2"
    case CO => "CO"
    case Ozone => "Ozone"
  }

  /** Recognises a pollutant name by exact, case-sensitive comparison, trying
      the names in the order the program tests them; any other string is
      unrecognised. */
  function Parse(name: string): (r: Option<Pollutant>)
    ensures r.Some? ==> Name(r.value) == name
  {
    if name == "PM2.5" then Some(PM25)
    else if name == "PM10" then Some(PM10)
    else if name == "NO2" then Some(NO2)
    else if name == "SO2" then Some(SO2)
    else if name == "CO" then Some(CO)
    else if name == "Ozone" then Some(Ozone)
    else None
  }

  /** Every pollutant is recognised by its own name, so the names are distinct. */
  lemma ParseName(p: Pollutant)
    ensures Parse(Name(p)) == Some(p)
  {
  }

  /** A name is recognised exactly when it is one of the six column names. */
  lemma ParseRecognises(name: string)
    ensures Parse(name).Some? <==> exists p :: Name(p) == name
  {
    if exists p :: Name(p) == name {
      var p :| Name(p) == name;
      ParseName(p);
    }
  }

  /** The order of the pollutant columns in the aggregation step. */
  const Columns: seq<Pollutant> := [PM25, PM10, Ozone, NO2, SO2, CO]

  /** Every pollutant has a column, and only one. */
  function ColumnIndex(p: Pollutant): (k: nat)
    ensures k < |Columns| && Columns[k] == p
    ensures forall j :: 0 <= j < |Columns| && Columns[j] == p ==> j == k
  {
    match p
    case PM25 => 0
    case PM10 => 1
    case Ozone => 2
    case NO2 => 3
    case SO2 => 4
    case CO => 5
  }
}

/** The optional value used wherever the program may produce "no number":
    a missing concentration reading (a NaN cell of the input table), an
    unrecognised pollutant name, or a row whose AQI is undefined. */
module Options {

  datatype Option<+T> = None | Some(value: T)
}

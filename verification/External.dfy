/** How a call to something outside the process ends. */
module External {

  /** It works, it throws without effect, or it takes effect and throws. */
  datatype Outcome = Works | Refused | Lost
}

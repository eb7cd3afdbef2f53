/** What submitting one of the auth forms ends in: a navigation, or an error
    toast with the form left in place. */
module FormOutcomes {
  datatype FormOutcome = Navigate(to: string) | ShowError(message: string)
}

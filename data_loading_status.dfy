/** `DataLoadingStatus`: the progress of one network request. */
module LoadingStatus {
  datatype DataLoadingStatus = NotStarted | Loading | Success | Error
}

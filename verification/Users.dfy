/** The states a connection goes through. */
module Users {

  datatype UserState = Connected | GaveClientInfo | LoggedIn | Disconnected
}

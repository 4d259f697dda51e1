/** What the pages see of the hosted auth service and of the browser: the
    session, and the requests, toasts and navigations the pages issue. The
    service's answers reach the model as the arguments of event methods. */
module Runtime {

  datatype User = User(id: string)

  datatype Session = Session(user: User)

  /** One outward action, in the order a page performs it. */
  datatype Effect =
    | Navigate(path: string)
    | FetchCampusMap            // select every campus_map row ordered by name
    | FetchProfile(userId: string) // select the single profiles row with this id
    | SignOut
    | ErrorToast(message: string)
    | SuccessToast(message: string)

  const AuthPath: string := "/auth"
}

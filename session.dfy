/** Values shared by the login page, the navigation shell and the protected pages:
    the optional-value wrapper, the user record that the (unmodelled) auth service
    hands out, and the route paths the pages navigate to. */
module Session {

  datatype Option<+T> = None | Some(value: T)

  /** The current user as the pages read it. Only `name` matters to the modelled
      behaviour; the other fields (`email`, `username`, `role`) are display only. */
  datatype User = User(name: string, email: string)

  const SignInRoute: string := "/sign-in"
  const DashboardRoute: string := "/dashboard"
}

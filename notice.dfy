/** The toast notices the page shows the user after an action. */
module Notice {
  datatype Toast = Toast(title: string, description: string, destructive: bool)
}

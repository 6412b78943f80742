/** The notices the site shows through its `useToast` hook. */
module Toasts {

  /** A notice: its title and text, and whether it is shown as an error. */
  datatype Toast = Toast(title: string, description: string, destructive: bool)
}

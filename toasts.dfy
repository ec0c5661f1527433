/** The notifications the client pages raise (`toast.success`, `toast.error`),
    kept in order as part of each page's observable state. */
module Toasts {

  datatype Toast = SuccessToast(text: string) | ErrorToast(text: string)
}

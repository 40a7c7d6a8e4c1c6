/** Values the PACrunner daemon hands to its script drivers, and the C-string boundary
    between V8's strings and the daemon's `char *` buffers. */
module Pacrunner {

  datatype Option<T> = None | Some(value: T)

  /** The parts of a `struct pacrunner_proxy` the V8 driver reads: the network interface
      (`pacrunner_proxy_get_interface`) and the PAC script text (`pacrunner_proxy_get_script`),
      either of which may be NULL. */
  datatype Proxy = Proxy(interface: Option<string>, script: Option<string>)

  /** The text a C function sees when handed the buffer of a V8 `Utf8Value`: everything
      up to the first NUL. */
  function CString(s: string): (r: string)
    ensures r <= s
    ensures '\0' !in r
    ensures |r| < |s| ==> s[|r|] == '\0'
  {
    if s == [] || s[0] == '\0' then [] else [s[0]] + CString(s[1..])
  }

  /** A string without NUL passes through the C boundary unchanged. */
  lemma CStringWithoutNul(s: string)
    requires '\0' !in s
    ensures CString(s) == s
  {
  }
}

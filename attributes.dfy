/** The helper that lists an object's public attributes for the debug log. */
module Attributes {

  /** k.startswith('_') */
  predicate Private(k: string) {
    |k| > 0 && k[0] == '_'
  }

  /** The keys get_attributes removes: the logger and every private name. */
  predicate Dropped(k: string) {
    k == "logger" || Private(k)
  }

  /** The attributes get_attributes reports. */
  function Visible<V>(attrs: map<string, V>): map<string, V> {
    map k | k in attrs && !Dropped(k) :: attrs[k]
  }

  /** get_attributes on an object whose vars() are attrs: a copy of the
      dictionary, a first loop collecting the private keys after 'logger',
      and a second loop popping each of them, absent ones included. */
  method GetAttributes<V>(attrs: map<string, V>) returns (r: map<string, V>)
    ensures "logger" !in r
    ensures forall k | k in r :: !Private(k)
    ensures forall k | k in attrs && !Dropped(k) :: k in r
    ensures r.Keys <= attrs.Keys && forall k | k in r :: r[k] == attrs[k]
    ensures r == Visible(attrs)
  {
    r := attrs;
    var keysToPop := ["logger"];
    var rest := attrs.Keys;
    while rest != {}
      invariant rest <= attrs.Keys
      invariant |keysToPop| > 0 && keysToPop[0] == "logger"
      invariant forall k | k in attrs && k !in rest && Private(k) :: k in keysToPop
      invariant forall k | k in keysToPop :: Dropped(k)
      decreases rest
    {
      var k :| k in rest;
      if |k| > 0 && k[0] == '_' {
        keysToPop := keysToPop + [k];
      }
      rest := rest - {k};
    }
    var n := 0;
    while n < |keysToPop|
      invariant 0 <= n <= |keysToPop|
      invariant r.Keys == attrs.Keys - set j | 0 <= j < n :: keysToPop[j]
      invariant forall k | k in r :: r[k] == attrs[k]
    {
      r := r - {keysToPop[n]};
      n := n + 1;
    }
    var popped := set j | 0 <= j < |keysToPop| :: keysToPop[j];
    assert "logger" in popped;
    assert forall k | k in attrs :: k in popped <==> Dropped(k);
    assert r.Keys == Visible(attrs).Keys;
  }
}

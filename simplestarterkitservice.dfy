/**
 * `SimpleStarterKitService::install`: a placeholder that only reports.
 */
module SimpleStarterKitService {
  import opened Prelude
  import opened Host

  function InstallSpec(w: World, name: String): (World, Status) {
    var w1 := SaySpec(w, Text, "Installing Simple Starter Kit (default CakePHP + TailwindCSS)...");
    (SaySpec(w1, Success, "Simple Starter Kit installed (placeholder)."), Completed)
  }

  method Install(h: Host, name: String) returns (status: Status)
    modifies h
    ensures (h.State(), status) == InstallSpec(old(h.State()), name)
  {
    h.Say(Text, "Installing Simple Starter Kit (default CakePHP + TailwindCSS)...");
    h.Say(Success, "Simple Starter Kit installed (placeholder).");
    status := Completed;
  }

  /**
   * It returns normally, touches no file, starts no process, ignores the
   * name, and says one text line and then one success line.
   */
  lemma InstallOnlyReports(w: World, name: String, other: String)
    ensures var w' := InstallSpec(w, name).0;
      var status := InstallSpec(w, name).1;
      status == Completed && w'.fs == w.fs && Commands(w'.log) == Commands(w.log) &&
      w'.log == w.log + [Said(Text, "Installing Simple Starter Kit (default CakePHP + TailwindCSS)..."),
                         Said(Success, "Simple Starter Kit installed (placeholder).")] &&
      InstallSpec(w, other) == InstallSpec(w, name)
  {
    var w1 := SaySpec(w, Text, "Installing Simple Starter Kit (default CakePHP + TailwindCSS)...");
    CommandsOfSay(w, Text, "Installing Simple Starter Kit (default CakePHP + TailwindCSS)...");
    CommandsOfSay(w1, Success, "Simple Starter Kit installed (placeholder).");
  }
}

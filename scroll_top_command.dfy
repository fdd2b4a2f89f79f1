/**
 * The AJAX command that asks the browser to scroll to the top of the
 * element a CSS selector names.
 */
module ScrollTop {

  const CommandName := "viewsScrollTop"

  class ScrollTopCommand {
    /** A CSS selector. */
    var selector: string

    constructor (selector: string)
      ensures this.selector == selector
    {
      this.selector := selector;
    }

    /** The command as sent to the browser: exactly the keys `command` and
        `selector`, the first always "viewsScrollTop", the second the stored
        selector. Reading only, it gives the same record on every call. */
    function Render(): (r: map<string, string>)
      reads this
      ensures r.Keys == {"command", "selector"}
      ensures r["command"] == CommandName
      ensures r["selector"] == selector
    {
      map["command" := CommandName, "selector" := selector]
    }
  }
}

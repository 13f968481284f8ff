/** The persisted sidebar state of the admin layout. */
module UiStore {
  class UIState {
    var sidebarOpen: bool
    var sidebarCollapsed: bool

    /** The initial state: the sidebar open and not collapsed. */
    constructor()
      ensures sidebarOpen && !sidebarCollapsed
    {
      sidebarOpen := true;
      sidebarCollapsed := false;
    }

    /** `setSidebarOpen(open)`. */
    method SetSidebarOpen(open: bool)
      modifies this
      ensures sidebarOpen == open && sidebarCollapsed == old(sidebarCollapsed)
    {
      sidebarOpen := open;
    }

    /** `toggleSidebar()`. */
    method ToggleSidebar()
      modifies this
      ensures sidebarOpen == !old(sidebarOpen) && sidebarCollapsed == old(sidebarCollapsed)
    {
      sidebarOpen := !sidebarOpen;
    }

    /** `setSidebarCollapsed(collapsed)`. */
    method SetSidebarCollapsed(collapsed: bool)
      modifies this
      ensures sidebarCollapsed == collapsed && sidebarOpen == old(sidebarOpen)
    {
      sidebarCollapsed := collapsed;
    }

    /** `toggleSidebarCollapsed()`. */
    method ToggleSidebarCollapsed()
      modifies this
      ensures sidebarCollapsed == !old(sidebarCollapsed) && sidebarOpen == old(sidebarOpen)
    {
      sidebarCollapsed := !sidebarCollapsed;
    }
  }
}

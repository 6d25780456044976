/**
 * Sidebar navigation of the dashboard. The session keeps the label of the
 * active page and one checkbox flag per page; each flag may still be absent
 * from the session before initialisation. Callbacks keep the checkboxes
 * mutually exclusive, a repair step re-checks the home page when every box is
 * clear, and the page rendered depends on the stored label alone.
 */
module Navigation {
  import opened Wrappers

  /** The five pages, in sidebar order. */
  datatype Page = Beranda | Pelanggan | Produk | Pesanan | DetailPesanan

  /** The label stored in `active_page` for each page. */
  function Label(p: Page): string {
    match p
    case Beranda => "🏠 Beranda"
    case Pelanggan => "👥 Pelanggan"
    case Produk => "📦 Produk"
    case Pesanan => "🛒 Pesanan"
    case DetailPesanan => "📋 Detail Pesanan"
  }

  /** The if/elif chain that picks what to render from the stored label;
      a label matching no branch renders no page body. */
  function Dispatch(stored: string): (r: Option<Page>)
    ensures forall p :: r == Some(p) <==> stored == Label(p)
    ensures r.None? <==> forall p :: stored != Label(p)
  {
    if stored == Label(Beranda) then Some(Beranda)
    else if stored == Label(Pelanggan) then Some(Pelanggan)
    else if stored == Label(Produk) then Some(Produk)
    else if stored == Label(Pesanan) then Some(Pesanan)
    else if stored == Label(DetailPesanan) then Some(DetailPesanan)
    else None
  }

  /** The navigation keys of the session; `None` is a key not yet present. */
  datatype SessionState = SessionState(
    activePage: Option<string>,
    beranda: Option<bool>,
    pelanggan: Option<bool>,
    produk: Option<bool>,
    pesanan: Option<bool>,
    detailPesanan: Option<bool>)
  {
    /** The checkbox key belonging to page `p`. */
    function Flag(p: Page): Option<bool> {
      match p
      case Beranda => beranda
      case Pelanggan => pelanggan
      case Produk => produk
      case Pesanan => pesanan
      case DetailPesanan => detailPesanan
    }

    /** Every navigation key is present. */
    predicate Initialized() {
      activePage.Some? && beranda.Some? && pelanggan.Some? && produk.Some?
      && pesanan.Some? && detailPesanan.Some?
    }

    predicate Checked(p: Page) {
      Flag(p) == Some(true)
    }

    predicate AnyChecked() {
      Checked(Beranda) || Checked(Pelanggan) || Checked(Produk) || Checked(Pesanan)
      || Checked(DetailPesanan)
    }

    /** Page `p` is active and its checkbox is the only one checked. */
    predicate ExclusivelyOn(p: Page) {
      Initialized() && activePage == Some(Label(p)) && forall q :: Flag(q) == Some(q == p)
    }

    /** The session with the checkbox of `p` set to `v` and nothing else changed. */
    function WithFlag(p: Page, v: bool): (r: SessionState)
      ensures r.Flag(p) == Some(v) && r.activePage == activePage
      ensures forall q :: q != p ==> r.Flag(q) == Flag(q)
    {
      match p
      case Beranda => this.(beranda := Some(v))
      case Pelanggan => this.(pelanggan := Some(v))
      case Produk => this.(produk := Some(v))
      case Pesanan => this.(pesanan := Some(v))
      case DetailPesanan => this.(detailPesanan := Some(v))
    }
  }

  /** A session in which no navigation key has been written yet. */
  function FreshSession(): SessionState {
    SessionState(None, None, None, None, None, None)
  }

  /** Initialisation: `active_page` defaults to the home page, then every absent
      checkbox key is derived from it; keys already present are kept. */
  function InitKeys(s: SessionState): (r: SessionState)
    ensures r.Initialized()
    ensures s.activePage.Some? ==> r.activePage == s.activePage
    ensures s.activePage.None? ==> r.activePage == Some(Label(Beranda))
    ensures forall p :: r.Flag(p) == if s.Flag(p).Some? then s.Flag(p) else Some(r.activePage == Some(Label(p)))
  {
    var active := s.activePage.GetOr(Label(Beranda));
    SessionState(
      Some(active),
      Some(s.beranda.GetOr(active == Label(Beranda))),
      Some(s.pelanggan.GetOr(active == Label(Pelanggan))),
      Some(s.produk.GetOr(active == Label(Produk))),
      Some(s.pesanan.GetOr(active == Label(Pesanan))),
      Some(s.detailPesanan.GetOr(active == Label(DetailPesanan))))
  }

  /** The repair step: when no checkbox is checked, the home page becomes
      active and checked; otherwise the session is left as it is. */
  function RepairFlags(s: SessionState): (r: SessionState)
    requires s.Initialized()
    ensures r.Initialized() && r.AnyChecked()
    ensures s.AnyChecked() ==> r == s
    ensures !s.AnyChecked() ==>
              (r.activePage == Some(Label(Beranda)) && r.Checked(Beranda)
               && forall q :: q != Beranda ==> r.Flag(q) == s.Flag(q))
  {
    if s.AnyChecked() then s
    else s.(activePage := Some(Label(Beranda)), beranda := Some(true))
  }

  /** The on-change callback of page `p`: when its own checkbox is checked the
      page becomes active and every other checkbox is cleared; otherwise
      nothing changes. */
  function CallbackEffect(s: SessionState, p: Page): (r: SessionState)
    requires s.Initialized()
    ensures r.Initialized()
    ensures s.Checked(p) ==> r.ExclusivelyOn(p)
    ensures !s.Checked(p) ==> r == s
  {
    if !s.Checked(p) then s
    else
      var cleared := SessionState(s.activePage, Some(false), Some(false), Some(false), Some(false), Some(false));
      cleared.(activePage := Some(Label(p))).WithFlag(p, true)
  }

  /** One script run before the widgets are drawn: initialisation, then repair. */
  function Rerun(s: SessionState): (r: SessionState)
    ensures r.Initialized() && r.AnyChecked()
  {
    RepairFlags(InitKeys(s))
  }

  /** A click on the checkbox of `p`: the widget stores its toggled value in
      the session, then the page's callback runs. */
  function Click(s: SessionState, p: Page): SessionState
    requires s.Initialized()
  {
    var toggled := s.WithFlag(p, !s.Checked(p));
    CallbackEffect(toggled, p)
  }

  /** A new session starts on the home page with only its checkbox checked. */
  lemma FreshSessionStartsHome()
    ensures Rerun(FreshSession()).ExclusivelyOn(Beranda)
    ensures InitKeys(FreshSession()).ExclusivelyOn(Beranda)
  {
  }

  /** Clicking a page that is not active makes it the exclusive active page;
      clicking the active page clears every checkbox without changing the
      stored label, and the next run restores the home page. */
  lemma ClickCycle(s: SessionState, a: Page, q: Page)
    requires s.ExclusivelyOn(a)
    ensures q != a ==> Click(s, q).ExclusivelyOn(q) && Rerun(Click(s, q)) == Click(s, q)
    ensures q == a ==> !Click(s, q).AnyChecked() && Click(s, q).activePage == s.activePage
    ensures q == a ==> Rerun(Click(s, q)).ExclusivelyOn(Beranda)
    ensures Rerun(Click(s, q)).ExclusivelyOn(if q == a then Beranda else q)
  {
  }

  /** The sidebar state of one browser session, updated in place by the script
      and by the checkbox callbacks. */
  class Session {
    var activePage: Option<string>
    var beranda: Option<bool>
    var pelanggan: Option<bool>
    var produk: Option<bool>
    var pesanan: Option<bool>
    var detailPesanan: Option<bool>

    function State(): SessionState
      reads this
    {
      SessionState(activePage, beranda, pelanggan, produk, pesanan, detailPesanan)
    }

    /** A new browser session: no navigation key present. */
    constructor ()
      ensures State() == FreshSession()
    {
      activePage, beranda, pelanggan, produk, pesanan, detailPesanan := None, None, None, None, None, None;
    }

    /** Writes the keys that are absent and leaves present ones alone. */
    method InitializeKeys()
      modifies this
      ensures State() == InitKeys(old(State()))
    {
      if activePage.None? {
        activePage := Some(Label(Beranda));
      }
      var active := activePage.value;
      if beranda.None? {
        beranda := Some(active == Label(Beranda));
      }
      if pelanggan.None? {
        pelanggan := Some(active == Label(Pelanggan));
      }
      if produk.None? {
        produk := Some(active == Label(Produk));
      }
      if pesanan.None? {
        pesanan := Some(active == Label(Pesanan));
      }
      if detailPesanan.None? {
        detailPesanan := Some(active == Label(DetailPesanan));
      }
    }

    /** Re-checks the home page when no checkbox is checked. */
    method EnsureOneChecked()
      requires State().Initialized()
      modifies this
      ensures State() == RepairFlags(old(State()))
    {
      if !(beranda.value || pelanggan.value || produk.value || pesanan.value || detailPesanan.value) {
        activePage := Some(Label(Beranda));
        beranda := Some(true);
      }
    }

    method UpdatePageBeranda()
      requires State().Initialized()
      modifies this
      ensures State() == CallbackEffect(old(State()), Beranda)
    {
      if beranda.value {
        activePage := Some(Label(Beranda));
        pelanggan := Some(false);
        produk := Some(false);
        pesanan := Some(false);
        detailPesanan := Some(false);
      }
    }

    method UpdatePagePelanggan()
      requires State().Initialized()
      modifies this
      ensures State() == CallbackEffect(old(State()), Pelanggan)
    {
      if pelanggan.value {
        activePage := Some(Label(Pelanggan));
        beranda := Some(false);
        produk := Some(false);
        pesanan := Some(false);
        detailPesanan := Some(false);
      }
    }

    method UpdatePageProduk()
      requires State().Initialized()
      modifies this
      ensures State() == CallbackEffect(old(State()), Produk)
    {
      if produk.value {
        activePage := Some(Label(Produk));
        beranda := Some(false);
        pelanggan := Some(false);
        pesanan := Some(false);
        detailPesanan := Some(false);
      }
    }

    method UpdatePagePesanan()
      requires State().Initialized()
      modifies this
      ensures State() == CallbackEffect(old(State()), Pesanan)
    {
      if pesanan.value {
        activePage := Some(Label(Pesanan));
        beranda := Some(false);
        pelanggan := Some(false);
        produk := Some(false);
        detailPesanan := Some(false);
      }
    }

    method UpdatePageDetail()
      requires State().Initialized()
      modifies this
      ensures State() == CallbackEffect(old(State()), DetailPesanan)
    {
      if detailPesanan.value {
        activePage := Some(Label(DetailPesanan));
        beranda := Some(false);
        pelanggan := Some(false);
        produk := Some(false);
        pesanan := Some(false);
      }
    }

    /** The page whose body is rendered: decided by the stored label alone,
        whatever the checkboxes say. */
    method ShownPage() returns (page: Option<Page>)
      requires activePage.Some?
      ensures forall p :: page == Some(p) <==> activePage == Some(Label(p))
    {
      page := Dispatch(activePage.value);
    }
  }
}

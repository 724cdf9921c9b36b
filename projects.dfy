/** The projects section (src/components/sections/Projects.tsx): the table of
    projects, the links on each card, and the image modal with its Escape
    key handler. */
module ProjectsSection {
  import opened Wrappers

  /** An imported image asset, by the URL the bundler gives it. */
  type Image = string

  datatype Project = Project(
    title: string, image: Image, tech: seq<string>,
    github: string, liveDemo: bool, live: string)

  /** The project table, in display order. */
  const Projects: seq<Project> := [
    Project("Onboard Careers", "onboard.png",
      ["Next.js", "PostgreSQL", "Prisma ORM", "Tailwind CSS", "TypeScript"],
      "https://github.com/muhammedsirajudeen/core-backend", true, "https://www.onboardcareers.in"),
    Project("NearHirable - Recruitment Portal", "forge.onboard.png",
      ["Next.js", "MongoDB", "Tailwind CSS", "TypeScript"],
      "https://github.com/muhammedsirajudeen/near-hireable-platform-engine", true, "https://forge.onboardcareers.in"),
    Project("MentorsHub", "mentorshub.png",
      ["React.js", "TypeScript", "Node.js", "Socket.io", "MongoDB", "Tailwind CSS"],
      "https://github.com/JasimIhsan/MentorsHub", true, "https://mentors-hub-in.vercel.app"),
    Project("Brew Code JS Compiler", "brewcode.png",
      ["React", "TypeScript"],
      "https://github.com/JasimIhsan/Brew-Code-JS-Compiler", true, "https://brewcode.vercel.app"),
    Project("Byteverse E-Commerce Platform", "byteverse.png",
      ["Node.js", "MongoDB", "Ejs", "RazorPay"],
      "https://github.com/JasimIhsan/Byteverse-E-commerse-website", false, "#"),
    Project("User Management System", "user_management.jpg",
      ["React", "TypeScript"],
      "https://github.com/JasimIhsan/User_Management", false, "#")
  ]

  /** The titles are the list keys of the cards, so no two may be equal. */
  lemma TitlesDistinct()
    ensures forall i, j :: 0 <= i < j < |Projects| ==> Projects[i].title != Projects[j].title
  {
  }

  /** Exactly the projects with a live demo have a real site address; the
      others carry the placeholder "#". */
  lemma LiveDemoHasAddress()
    ensures forall i :: 0 <= i < |Projects| ==> (Projects[i].liveDemo <==> Projects[i].live != "#")
  {
  }

  /** A link on a project card: its caption and target. */
  datatype Link = Link(caption: string, href: string)

  /** The links rendered on a card: always the "Code" link to the
      repository, then a "Visit Site" link only for a live demo. */
  function CardLinks(p: Project): (links: seq<Link>)
    ensures 1 <= |links| <= 2 && links[0] == Link("Code", p.github)
    ensures |links| == 2 <==> p.liveDemo
    ensures |links| == 2 ==> links[1] == Link("Visit Site", p.live)
  {
    [Link("Code", p.github)] + (if p.liveDemo then [Link("Visit Site", p.live)] else [])
  }

  /** Every "Visit Site" link on the page points to a real address. */
  lemma VisitSiteNeverPlaceholder(i: int)
    requires 0 <= i < |Projects|
    ensures forall k :: 0 <= k < |CardLinks(Projects[i])| && CardLinks(Projects[i])[k].caption == "Visit Site" ==>
              CardLinks(Projects[i])[k].href != "#"
  {
    LiveDemoHasAddress();
  }

  /** JavaScript truthiness of the selected image: `null` and the empty
      string are falsy. */
  predicate Truthy(image: Option<Image>)
  {
    image.Some? && image.value != ""
  }

  /** The image modal's two state cells. */
  class ImageModal {
    var isModalOpen: bool
    var selectedImage: Option<Image>

    /** Closed, nothing selected. */
    constructor ()
      ensures !isModalOpen && selectedImage == None && !Visible()
    {
      isModalOpen := false;
      selectedImage := None;
    }

    /** The enlarged image is on screen exactly when the modal is open and
        an image is selected. */
    predicate Visible()
      reads this
      ensures Visible() ==> isModalOpen && selectedImage.Some?
    {
      isModalOpen && Truthy(selectedImage)
    }

    /** `openModal(image)`: select the image and open. */
    method OpenModal(image: Image)
      modifies this
      ensures isModalOpen && selectedImage == Some(image)
      ensures Visible() <==> image != ""
    {
      selectedImage := Some(image);
      isModalOpen := true;
    }

    /** `closeModal`: close and clear the selection; used by the close
        button, a click on the backdrop and the Escape key. */
    method CloseModal()
      modifies this
      ensures !isModalOpen && selectedImage == None && !Visible()
    {
      isModalOpen := false;
      selectedImage := None;
    }

    /** The window's keydown handler: Escape closes an open modal; any other
        key, or Escape while closed, changes nothing. */
    method HandleKeyDown(key: string)
      modifies this
      ensures if key == "Escape" && old(isModalOpen)
              then !isModalOpen && selectedImage == None
              else isModalOpen == old(isModalOpen) && selectedImage == old(selectedImage)
    {
      if key == "Escape" && isModalOpen {
        CloseModal();
      }
    }
  }

  /** Clicking the image of any card shows it enlarged, and Escape then hides it. */
  method OpenCardThenEscape(modal: ImageModal, i: int) returns (shown: bool, shownAfterEscape: bool)
    requires 0 <= i < |Projects|
    modifies modal
    ensures shown && !shownAfterEscape
  {
    modal.OpenModal(Projects[i].image);
    shown := modal.Visible();
    modal.HandleKeyDown("Escape");
    shownAfterEscape := modal.Visible();
  }
}
